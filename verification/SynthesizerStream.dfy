/** The synthesizer as the object the gateway runs: its methods change the
    state in place and queue frames, and each does what its function in
    `Synthesizer` says. */
module SynthesizerStream {
  import opened Prelude
  import opened Json
  import opened Framing
  import opened Responses
  import opened Synthesizer
  import opened ToolNames

  lemma Append<T>(a: seq<T>, b: seq<T>, t: T)
    ensures a + (b + [t]) == (a + b) + [t]
  {
  }

  lemma PushCallsStep(cfg: Config, s: State, fragments: seq<Fragment>, i: nat)
    requires i < |fragments|
    ensures PushCalls(cfg, s, fragments[i..]) == PushCalls(cfg, PushCall(cfg, s, fragments[i]), fragments[i + 1..])
  {
    assert fragments[i..][1..] == fragments[i + 1..];
  }

  lemma RunFromStep(cfg: Config, x: Intake, chunks: seq<Bytes>, end: End)
    requires chunks != [] && !x.state.finished
    ensures RunFrom(cfg, Push(cfg, x, chunks[0]), chunks[1..], end) == RunFrom(cfg, x, chunks, end)
  {
  }

  lemma RunFromEnd(cfg: Config, x: Intake, chunks: seq<Bytes>, end: End)
    requires chunks == [] || x.state.finished
    ensures RunFrom(cfg, x, chunks, end) == x.(state := Conclude(x.state, end))
    ensures Conclude(x.state, end).finished
    ensures RunFrom(cfg, x.(state := Conclude(x.state, end)), chunks, end) == RunFrom(cfg, x, chunks, end)
  {
  }

  /** The `data` of a frame, line by line. */
  method CollectData(text: Bytes) returns (data: Bytes)
    ensures data == DataOf("", text)
  {
    var rest := text;
    data := "";
    while rest != ""
      invariant DataOf(data, rest) == DataOf("", text)
      decreases |rest|
    {
      var end := IndexOf(rest, '\n');
      if end == |rest| {
        data := AddLine(data, rest);
        rest := "";
      } else {
        data := AddLine(data, StripCr(rest[..end]));
        rest := rest[end + 1..];
      }
    }
  }

  /** `delivered` is the history of events already taken by the reader, `heard`
      the history of upstream contributions. Each method takes the state it
      starts in, `s`, as a ghost. */
  class Translator {
    const cfg: Config
    var model: string
    var responseId: string
    var idStem: string
    var buffer: Bytes
    var pending: seq<Event>
    var output: seq<Item>
    var calls: seq<Call>
    var reasoning: Option<TextItem>
    var message: Option<TextItem>
    var usage: Option<Value>
    var nextIndex: nat
    var sequence: nat
    var started: bool
    var finished: bool
    var terminated: bool
    ghost var heard: seq<Delta>
    ghost var delivered: seq<Event>

    /** The fields are those of `s`, whose events are delivered or queued. */
    ghost predicate Is(s: State)
      reads this
    {
      && model == s.model && responseId == s.responseId && idStem == s.idStem
      && output == s.output && calls == s.calls
      && reasoning == s.reasoning && message == s.message && usage == s.usage
      && nextIndex == s.nextIndex && sequence == s.sequence
      && started == s.started && finished == s.finished && terminated == s.terminated && heard == s.heard
      && delivered + pending == s.events
    }

    constructor (cfg: Config)
      ensures this.cfg == cfg && Is(Initial(cfg)) && buffer == "" && delivered == []
    {
      this.cfg := cfg;
      model, responseId, idStem := cfg.model, "", "";
      buffer, pending, output, calls := "", [], [], [];
      reasoning, message, usage := None, None, None;
      nextIndex, sequence := 0, 0;
      started, finished, terminated := false, false, false;
      heard, delivered := [], [];
    }

    method EmitEvent(ghost s: State, body: Body)
      requires Is(s)
      modifies this`pending, this`sequence
      ensures Is(Emit(s, body))
    {
      var e := Event(sequence, body);
      Append(delivered, pending, e);
      pending := pending + [e];
      sequence := sequence + 1;
    }

    method FailWith(ghost s: State, text: string)
      requires Is(s)
      modifies this`pending, this`sequence, this`terminated, this`finished
      ensures Is(Fail(s, text))
    {
      if terminated {
        finished := true;
        return;
      }
      EmitEvent(s, Error(text, if responseId == "" then None else Some(responseId)));
      terminated := true;
      finished := true;
    }

    method StartResponse(ghost s: State, chunk: Chunk)
      requires Is(s)
      modifies this`started, this`idStem, this`responseId, this`model, this`pending, this`sequence
      ensures Is(Start(cfg, s, chunk))
    {
      if started {
        return;
      }
      started := true;
      idStem := SanitizeIdentifier(if chunk.id != "" then chunk.id else cfg.requestKey);
      responseId := "resp_" + idStem;
      if chunk.model != "" {
        model := chunk.model;
      }
      var response := Envelope(responseId, Running, model, [], usage);
      ghost var named := s.(started := true, idStem := idStem, responseId := responseId, model := model);
      EmitEvent(named, Created(response));
      EmitEvent(Emit(named, Created(response)), InProgress(response));
    }

    method TakeOutputIndex() returns (index: nat)
      modifies this`nextIndex
      ensures index == old(nextIndex) && nextIndex == index + 1
    {
      index := nextIndex;
      nextIndex := nextIndex + 1;
    }

    method CloseReasoningItem(ghost s: State)
      requires Is(s)
      modifies this`reasoning, this`output, this`pending, this`sequence
      ensures Is(CloseReasoning(s))
    {
      if reasoning.None? {
        return;
      }
      var t := reasoning.value;
      reasoning := None;
      ghost var s0 := s.(reasoning := None);
      EmitEvent(s0, SummaryDone(t.id, t.index, t.text));
      ghost var s1 := Emit(s0, SummaryDone(t.id, t.index, t.text));
      EmitEvent(s1, SummaryPartDone(t.id, t.index, t.text));
      var item := Reasoning(t.id, [t.text]);
      EmitEvent(Emit(s1, SummaryPartDone(t.id, t.index, t.text)), ItemDone(t.index, item));
      output := output + [item];
    }

    method CloseMessageItem(ghost s: State)
      requires Is(s)
      modifies this`message, this`output, this`pending, this`sequence
      ensures Is(CloseMessage(s))
    {
      if message.None? {
        return;
      }
      var t := message.value;
      message := None;
      ghost var s0 := s.(message := None);
      EmitEvent(s0, TextDone(t.id, t.index, t.text));
      ghost var s1 := Emit(s0, TextDone(t.id, t.index, t.text));
      EmitEvent(s1, ContentPartDone(t.id, t.index, t.text));
      var item := Message(t.id, true, [t.text]);
      EmitEvent(Emit(s1, ContentPartDone(t.id, t.index, t.text)), ItemDone(t.index, item));
      output := output + [item];
    }

    method OpenReasoningItem(ghost s: State)
      requires Is(s)
      modifies this`reasoning, this`nextIndex, this`pending, this`sequence
      ensures Is(OpenReasoning(s)) && reasoning.Some?
    {
      var index := TakeOutputIndex();
      var id := "rs" + "_" + idStem + "_" + Decimal(index);
      ghost var s0 := s.(nextIndex := nextIndex);
      EmitEvent(s0, ItemAdded(index, Reasoning(id, [])));
      EmitEvent(Emit(s0, ItemAdded(index, Reasoning(id, []))), SummaryPartAdded(id, index));
      reasoning := Some(TextItem(id, index, ""));
    }

    method OpenMessageItem(ghost s: State)
      requires Is(s)
      modifies this`message, this`nextIndex, this`pending, this`sequence
      ensures Is(OpenMessage(s)) && message.Some?
    {
      var index := TakeOutputIndex();
      var id := "msg" + "_" + idStem + "_" + Decimal(index);
      ghost var s0 := s.(nextIndex := nextIndex);
      EmitEvent(s0, ItemAdded(index, Message(id, false, [])));
      EmitEvent(Emit(s0, ItemAdded(index, Message(id, false, []))), ContentPartAdded(id, index));
      message := Some(TextItem(id, index, ""));
    }

    method ExtendReasoningItem(ghost s: State, delta: string)
      requires Is(s) && reasoning.Some?
      modifies this`reasoning, this`pending, this`sequence, this`heard
      ensures Is(ExtendReasoning(s, delta))
    {
      var t := reasoning.value;
      reasoning := Some(t.(text := t.text + delta));
      heard := heard + [Think(delta)];
      EmitEvent(s.(reasoning := reasoning, heard := heard), SummaryDelta(t.id, t.index, delta));
    }

    method ExtendMessageItem(ghost s: State, delta: string)
      requires Is(s) && message.Some?
      modifies this`message, this`pending, this`sequence, this`heard
      ensures Is(ExtendMessage(s, delta))
    {
      var t := message.value;
      message := Some(t.(text := t.text + delta));
      heard := heard + [Say(delta)];
      EmitEvent(s.(message := message, heard := heard), TextDelta(t.id, t.index, delta));
    }

    method AddReasoning(ghost s: State, delta: string)
      requires Is(s)
      modifies this`reasoning, this`message, this`output, this`nextIndex, this`pending, this`sequence, this`heard
      ensures Is(PushReasoning(s, delta))
    {
      CloseMessageItem(s);
      ghost var closed := CloseMessage(s);
      if reasoning.None? {
        OpenReasoningItem(closed);
      }
      ExtendReasoningItem(if closed.reasoning.None? then OpenReasoning(closed) else closed, delta);
    }

    method AddText(ghost s: State, delta: string)
      requires Is(s)
      modifies this`reasoning, this`message, this`output, this`nextIndex, this`pending, this`sequence, this`heard
      ensures Is(PushText(s, delta))
    {
      CloseReasoningItem(s);
      ghost var closed := CloseReasoning(s);
      if message.None? {
        OpenMessageItem(closed);
      }
      ExtendMessageItem(if closed.message.None? then OpenMessage(closed) else closed, delta);
    }

    /** Makes room for call `index`. */
    method GrowCalls(index: nat)
      modifies this`calls
      ensures calls == Grow(old(calls), index)
    {
      while |calls| <= index
        invariant Grow(calls, index) == Grow(old(calls), index)
        decreases index + 1 - |calls|
      {
        calls := calls + [NEW_CALL];
      }
    }

    method IdentifyCall(ghost s: State, i: nat)
      requires Is(s) && i < |calls|
      modifies this`calls, this`nextIndex
      ensures Is(Identify(s, i)) && |calls| == old(|calls|)
    {
      if calls[i].id == "" {
        var index := TakeOutputIndex();
        calls := calls[i := calls[i].(index := index, id := "fc_" + idStem + "_" + Decimal(index))];
      }
    }

    method LabelCall(ghost s: State, f: Fragment)
      requires Is(s) && f.index < |calls|
      modifies this`calls
      ensures Is(Relabel(cfg, s, f)) && |calls| == old(|calls|)
    {
      var call := calls[f.index];
      if f.id != "" && call.callId == "" {
        call := call.(callId := SanitizeIdentifier(f.id));
      }
      if f.name != "" && call.encodedName == "" {
        call :=
          call.(encodedName := f.name, name := Decode(cfg.tools, f.name), freeform := f.name in cfg.tools.freeform);
      }
      calls := calls[f.index := call];
    }

    method AnnounceCall(ghost s: State, i: nat)
      requires Is(s) && i < |calls|
      modifies this`calls, this`pending, this`sequence
      ensures Is(Announce(s, i)) && |calls| == old(|calls|)
    {
      var call := calls[i];
      if !call.announced && call.encodedName != "" && call.callId != "" {
        calls := calls[i := call.(announced := true)];
        EmitEvent(s.(calls := calls), ItemAdded(call.index, AddedItem(call)));
      }
    }

    method GrowArguments(ghost s: State, i: nat, fragment: string)
      requires Is(s) && i < |calls|
      modifies this`calls, this`pending, this`sequence
      ensures Is(AddArguments(s, i, fragment))
    {
      if fragment != "" {
        var call := calls[i].(arguments := calls[i].arguments + fragment);
        calls := calls[i := call];
        if !call.freeform && call.announced {
          EmitEvent(s.(calls := calls), ArgumentsDelta(call.id, call.index, fragment));
        }
      }
    }

    method ReceiveCall(ghost s: State, f: Fragment)
      requires Is(s)
      modifies this`reasoning, this`message, this`output, this`pending, this`sequence, this`calls, this`heard
      ensures Is(Arrive(s, f)) && f.index < |calls|
    {
      CloseReasoningItem(s);
      CloseMessageItem(CloseReasoning(s));
      heard := heard + [Tool(f)];
      GrowCalls(f.index);
    }

    method AddToolCall(ghost s: State, f: Fragment)
      requires Is(s)
      modifies this`reasoning, this`message, this`output, this`nextIndex, this`pending, this`sequence, this`calls,
               this`heard
      ensures Is(PushCall(cfg, s, f))
    {
      ReceiveCall(s, f);
      ghost var arrived := Arrive(s, f);
      IdentifyCall(arrived, f.index);
      ghost var known := Identify(arrived, f.index);
      LabelCall(known, f);
      ghost var labelled := Relabel(cfg, known, f);
      AnnounceCall(labelled, f.index);
      GrowArguments(Announce(labelled, f.index), f.index, f.arguments);
    }

    method CloseOneCall(ghost s: State, call: Call)
      requires Is(s)
      modifies this`output, this`pending, this`sequence
      ensures Is(CloseCall(cfg.codec, s, call))
    {
      var item := DoneItem(cfg.codec, call);
      ghost var said := s;
      if call.freeform {
        var input := FreeformInput(cfg.codec, call.arguments);
        EmitEvent(said, InputDelta(call.id, call.index, input));
        said := Emit(said, InputDelta(call.id, call.index, input));
        EmitEvent(said, InputDone(call.id, call.index, input));
        said := Emit(said, InputDone(call.id, call.index, input));
      } else {
        EmitEvent(said, ArgumentsDone(call.id, call.index, FinalArguments(call)));
        said := Emit(said, ArgumentsDone(call.id, call.index, FinalArguments(call)));
      }
      EmitEvent(said, ItemDone(call.index, item));
      output := output + [item];
    }

    /** Drains the calls; those never announced are dropped. */
    method CloseToolCalls(ghost s: State)
      requires Is(s)
      modifies this`calls, this`output, this`pending, this`sequence
      ensures Is(CloseCalls(cfg.codec, s.(calls := []), s.calls))
    {
      var drained := calls;
      calls := [];
      ghost var at := s.(calls := []);
      for i := 0 to |drained|
        invariant Is(at)
        invariant CloseCalls(cfg.codec, at, drained[i..]) == CloseCalls(cfg.codec, s.(calls := []), s.calls)
      {
        assert drained[i..][0] == drained[i] && drained[i..][1..] == drained[i + 1..];
        if drained[i].announced {
          CloseOneCall(at, drained[i]);
          at := CloseCall(cfg.codec, at, drained[i]);
        }
      }
    }

    method CloseEverything(ghost s: State)
      requires Is(s)
      modifies this`calls, this`reasoning, this`message, this`output, this`pending, this`sequence
      ensures Is(CloseAll(cfg.codec, s))
    {
      CloseReasoningItem(s);
      CloseMessageItem(CloseReasoning(s));
      CloseToolCalls(CloseMessage(CloseReasoning(s)));
    }

    method EmitFinal(ghost s: State, truncated: bool)
      requires Is(s)
      modifies this`pending, this`sequence, this`terminated, this`finished
      ensures Is(FinalEvent(s, truncated))
    {
      var response := Envelope(responseId, if truncated then Truncated else Finished, model, output, usage);
      EmitEvent(s, if truncated then Incomplete(response) else Completed(response));
      terminated := true;
      finished := true;
    }

    method FinishWith(ghost s: State, truncated: bool)
      requires Is(s)
      modifies this`calls, this`reasoning, this`message, this`output, this`pending, this`sequence, this`terminated,
               this`finished
      ensures Is(Complete(cfg, s, truncated))
    {
      if terminated {
        return;
      }
      if !started {
        FailWith(s, NO_CONTENT);
        return;
      }
      CloseEverything(s);
      EmitFinal(CloseAll(cfg.codec, s), truncated);
    }

    method TakeText(ghost s: State, chunk: Chunk)
      requires Is(s)
      modifies this
      ensures Is(TakeContent(TakeReasoning(s, chunk.reasoning), chunk.content)) && buffer == old(buffer)
              && delivered == old(delivered)
    {
      if chunk.reasoning != "" {
        AddReasoning(s, chunk.reasoning);
      }
      if chunk.content != "" {
        AddText(TakeReasoning(s, chunk.reasoning), chunk.content);
      }
    }

    method TakeCalls(ghost s: State, fragments: seq<Fragment>)
      requires Is(s)
      modifies this
      ensures Is(PushCalls(cfg, s, fragments)) && buffer == old(buffer) && delivered == old(delivered)
    {
      ghost var at := s;
      for i := 0 to |fragments|
        invariant Is(at) && buffer == old(buffer) && delivered == old(delivered)
        invariant PushCalls(cfg, at, fragments[i..]) == PushCalls(cfg, s, fragments)
      {
        PushCallsStep(cfg, at, fragments, i);
        AddToolCall(at, fragments[i]);
        at := PushCall(cfg, at, fragments[i]);
      }
    }

    method MeterChunk(ghost s: State, chunk: Chunk)
      requires Is(s)
      modifies this
      ensures Is(Metered(cfg, s, chunk)) && buffer == old(buffer) && delivered == old(delivered)
    {
      StartResponse(s, chunk);
      if chunk.usage.Some? {
        usage := chunk.usage;
      }
    }

    method TakeChoice(ghost s: State, chunk: Chunk)
      requires Is(s)
      modifies this
      ensures Is(TakeFinish(cfg, TakeDeltas(cfg, s, chunk), chunk.finish)) && buffer == old(buffer)
              && delivered == old(delivered)
    {
      TakeText(s, chunk);
      TakeCalls(TakeContent(TakeReasoning(s, chunk.reasoning), chunk.content), chunk.calls);
      if chunk.finish != "" {
        FinishWith(TakeDeltas(cfg, s, chunk), chunk.finish == "length");
      }
    }

    method TakeChunk(ghost s: State, chunk: Chunk)
      requires Is(s)
      modifies this
      ensures Is(HandleChunk(cfg, s, chunk)) && buffer == old(buffer) && delivered == old(delivered)
    {
      if chunk.error.Some? {
        FailWith(s, chunk.error.value);
      } else {
        MeterChunk(s, chunk);
        TakeChoice(Metered(cfg, s, chunk), chunk);
      }
    }

    method TakeDone(ghost s: State)
      requires Is(s)
      modifies this
      ensures Is(HandleDone(cfg, s)) && buffer == old(buffer) && delivered == old(delivered)
    {
      if !terminated {
        if started {
          FinishWith(s, false);
        } else {
          FailWith(s, NO_CONTENT);
        }
      }
      finished := true;
    }

    method TakeData(ghost s: State, data: Bytes)
      requires Is(s)
      modifies this
      ensures Is(HandleData(cfg, s, data)) && buffer == old(buffer) && delivered == old(delivered)
    {
      if data == "" {
        return;
      }
      if cfg.codec.trim(data) == "[DONE]" {
        TakeDone(s);
        return;
      }
      var value := cfg.codec.parse(data);
      if value.None? {
        FailWith(s, BAD_JSON);
      } else {
        TakeChunk(s, ReadChunk(value.value));
      }
    }

    method TakeFrame(ghost s: State, frame: Bytes)
      requires Is(s)
      modifies this
      ensures Is(HandleFrame(cfg, s, frame)) && buffer == old(buffer) && delivered == old(delivered)
    {
      if !cfg.codec.utf8(frame) {
        FailWith(s, NOT_UTF8);
        return;
      }
      var data := CollectData(frame);
      TakeData(s, data);
    }

    /** The state with the bytes not yet framed. */
    ghost predicate Holds(x: Intake)
      reads this
    {
      Is(x.state) && buffer == x.buffer
    }

    method Receive(ghost x: Intake, chunk: Bytes)
      requires Holds(x)
      modifies this
      ensures Holds(Push(cfg, x, chunk)) && delivered == old(delivered)
    {
      if terminated {
        return;
      }
      if |buffer| + |chunk| > cfg.maxBuffered {
        FailWith(x.state, TOO_LARGE);
        return;
      }
      buffer := buffer + chunk;
      ghost var at := x.(buffer := buffer);
      while true
        invariant Holds(at) && !terminated && Drain(cfg, at) == Drain(cfg, x.(buffer := x.buffer + chunk))
        invariant delivered == old(delivered)
        decreases |buffer|
      {
        var length := CompleteFrameLenEager(buffer);
        if length.None? {
          return;
        }
        var frame := buffer[..length.value];
        buffer := buffer[length.value..];
        TakeFrame(at.state, frame);
        at := Intake(HandleFrame(cfg, at.state, frame), buffer, at.taken + [frame]);
        if terminated {
          return;
        }
      }
    }

    method EndOfStream(ghost s: State)
      requires Is(s) && !finished
      modifies this
      ensures Is(Conclude(s, Closed)) && buffer == old(buffer) && delivered == old(delivered)
    {
      if terminated {
        finished := true;
        return;
      }
      FailWith(s, ENDED_EARLY);
      finished := true;
    }

    method PopFront(ghost s: State) returns (e: Event)
      requires Is(s) && pending != []
      modifies this`pending, this`delivered
      ensures Is(s) && delivered == old(delivered) + [e] && |pending| == |old(pending)| - 1
    {
      e := pending[0];
      pending := pending[1..];
      delivered := delivered + [e];
      assert [e] + pending == old(pending);
    }

    /** The unfold loop: hands out queued events, then reads more of the
        upstream body, until the stream is finished. */
    method Serve(chunks: seq<Bytes>, end: End) returns (out: seq<Event>)
      requires Holds(Begin(cfg)) && delivered == []
      modifies this
      ensures out == Run(cfg, chunks, end).state.events
    {
      var next := 0;
      out := [];
      ghost var x := Begin(cfg);
      while true
        invariant next <= |chunks| && Holds(x) && out == delivered
        invariant RunFrom(cfg, x, chunks[next..], end) == RunFrom(cfg, Begin(cfg), chunks, end)
        decreases |chunks| - next, !finished, |pending|
      {
        if pending != [] {
          var e := PopFront(x.state);
          out := out + [e];
        } else if finished {
          RunFromEnd(cfg, x, chunks[next..], end);
          return;
        } else if next < |chunks| {
          RunFromStep(cfg, x, chunks[next..], end);
          assert chunks[next..][0] == chunks[next] && chunks[next..][1..] == chunks[next + 1..];
          Receive(x, chunks[next]);
          x := Push(cfg, x, chunks[next]);
          next := next + 1;
        } else {
          match end {
            case Closed => EndOfStream(x.state);
            case Broken(text) => FailWith(x.state, text);
          }
          RunFromEnd(cfg, x, chunks[next..], end);
          x := x.(state := Conclude(x.state, end));
        }
      }
    }
  }
}
