/** Nothing the upstream said is lost or invented: text, reasoning and tool
    arguments, whatever their interleaving. */
module Conservation {
  import opened Prelude
  import opened Json
  import opened Responses
  import opened ToolNames
  import opened Synthesizer
  import Framing
  import C = Client
  import Conformance
  import U = Upstream

  // ----- text -----

  function Thought(heard: seq<Delta>): string {
    if heard == [] then ""
    else Thought(heard[..|heard| - 1]) + if heard[|heard| - 1].Think? then heard[|heard| - 1].text else ""
  }

  function Spoken(heard: seq<Delta>): string {
    if heard == [] then ""
    else Spoken(heard[..|heard| - 1]) + if heard[|heard| - 1].Say? then heard[|heard| - 1].text else ""
  }

  function ReasoningText(items: seq<Item>): string {
    if items == [] then ""
    else ReasoningText(items[..|items| - 1])
         + if items[|items| - 1].Reasoning? then Concat(items[|items| - 1].summary) else ""
  }

  function MessageText(items: seq<Item>): string {
    if items == [] then ""
    else MessageText(items[..|items| - 1])
         + if items[|items| - 1].Message? then Concat(items[|items| - 1].content) else ""
  }

  function OpenText(t: Option<TextItem>): string { if t.Some? then t.value.text else "" }

  /** Finished and open items together hold exactly what was heard. */
  predicate TextKept(s: State) {
    && ReasoningText(s.output) + OpenText(s.reasoning) == Thought(s.heard)
    && MessageText(s.output) + OpenText(s.message) == Spoken(s.heard)
  }

  lemma TextAppends(items: seq<Item>, item: Item)
    ensures ReasoningText(items + [item]) == ReasoningText(items) + if item.Reasoning? then Concat(item.summary) else ""
    ensures MessageText(items + [item]) == MessageText(items) + if item.Message? then Concat(item.content) else ""
  {
    assert (items + [item])[..|items|] == items;
  }

  lemma HeardAppends(heard: seq<Delta>, d: Delta)
    ensures Thought(heard + [d]) == Thought(heard) + if d.Think? then d.text else ""
    ensures Spoken(heard + [d]) == Spoken(heard) + if d.Say? then d.text else ""
  {
    assert (heard + [d])[..|heard|] == heard;
  }

  /** Closing an open text item moves its text to `output`. */
  lemma TextMoves(s: State, r: State)
    requires TextKept(s) && r.heard == s.heard
    requires if r.output == s.output then r.reasoning == s.reasoning && r.message == s.message
             else
               || (s.reasoning.Some? && r.reasoning.None? && r.message == s.message
                   && r.output == s.output + [Reasoning(s.reasoning.value.id, [s.reasoning.value.text])])
               || (s.message.Some? && r.message.None? && r.reasoning == s.reasoning
                   && r.output == s.output + [Message(s.message.value.id, true, [s.message.value.text])])
    ensures TextKept(r)
  {
    if r.output != s.output {
      TextAppends(s.output, r.output[|s.output|]);
      if s.reasoning.Some? {
        assert Concat([s.reasoning.value.text]) == s.reasoning.value.text + "" == s.reasoning.value.text;
      }
      if s.message.Some? {
        assert Concat([s.message.value.text]) == s.message.value.text + "" == s.message.value.text;
      }
    }
  }

  lemma ReasoningClosingKeepsText(s: State)
    requires TextKept(s)
    ensures TextKept(CloseReasoning(s)) && CloseReasoning(s).heard == s.heard && CloseReasoning(s).reasoning.None?
    ensures CloseReasoning(s).message == s.message
  {
    TextMoves(s, CloseReasoning(s));
  }

  lemma MessageClosingKeepsText(s: State)
    requires TextKept(s)
    ensures TextKept(CloseMessage(s)) && CloseMessage(s).heard == s.heard && CloseMessage(s).message.None?
    ensures CloseMessage(s).reasoning == s.reasoning
  {
    TextMoves(s, CloseMessage(s));
  }

  /** An open text item receives `delta`, having been opened if need be. */
  lemma TextGrows(s: State, r: State, d: Delta)
    requires TextKept(s) && r.output == s.output && r.heard == s.heard + [d] && !d.Tool?
    requires if d.Think? then r.message == s.message && OpenText(r.reasoning) == OpenText(s.reasoning) + d.text
             else r.reasoning == s.reasoning && OpenText(r.message) == OpenText(s.message) + d.text
    ensures TextKept(r)
  {
    HeardAppends(s.heard, d);
  }

  lemma ReasoningKeepsText(s: State, delta: string)
    requires TextKept(s)
    ensures TextKept(PushReasoning(s, delta)) && PushReasoning(s, delta).heard == s.heard + [Think(delta)]
  {
    MessageClosingKeepsText(s);
    var closed := CloseMessage(s);
    assert "" + delta == delta;
    TextGrows(closed, PushReasoning(s, delta), Think(delta));
  }

  lemma SpeechKeepsText(s: State, delta: string)
    requires TextKept(s)
    ensures TextKept(PushText(s, delta)) && PushText(s, delta).heard == s.heard + [Say(delta)]
  {
    ReasoningClosingKeepsText(s);
    var closed := CloseReasoning(s);
    assert "" + delta == delta;
    TextGrows(closed, PushText(s, delta), Say(delta));
  }

  ghost predicate SameText(s: State, r: State) {
    r.output == s.output && r.reasoning == s.reasoning && r.message == s.message && r.heard == s.heard
  }

  lemma TextSame(s: State, r: State)
    requires TextKept(s) && SameText(s, r)
    ensures TextKept(r)
  {
  }

  /** After a tool fragment has arrived, the call steps leave text alone. */
  lemma CallStepsLeaveText(cfg: Config, s: State, f: Fragment)
    requires f.index < |s.calls|
    ensures var known := Identify(s, f.index);
            var announced := Announce(Relabel(cfg, known, f), f.index);
            SameText(s, known) && SameText(known, announced)
            && SameText(announced, AddArguments(announced, f.index, f.arguments))
  {
  }

  lemma ToolIsNoText(s: State, r: State, f: Fragment)
    requires TextKept(s) && r.output == s.output && r.reasoning == s.reasoning && r.message == s.message
    requires r.heard == s.heard + [Tool(f)]
    ensures TextKept(r)
  {
    HeardAppends(s.heard, Tool(f));
  }

  lemma ArrivalKeepsText(s: State, f: Fragment)
    requires TextKept(s)
    ensures TextKept(Arrive(s, f)) && Arrive(s, f).heard == s.heard + [Tool(f)]
  {
    ReasoningClosingKeepsText(s);
    MessageClosingKeepsText(CloseReasoning(s));
    ToolIsNoText(CloseMessage(CloseReasoning(s)), Arrive(s, f), f);
  }

  lemma CallKeepsText(cfg: Config, s: State, f: Fragment)
    requires TextKept(s)
    ensures TextKept(PushCall(cfg, s, f)) && PushCall(cfg, s, f).heard == s.heard + [Tool(f)]
  {
    ArrivalKeepsText(s, f);
    CallStepsLeaveText(cfg, Arrive(s, f), f);
    TextSame(Arrive(s, f), PushCall(cfg, s, f));
  }

  function ToolDeltas(fragments: seq<Fragment>): seq<Delta> {
    if fragments == [] then [] else [Tool(fragments[0])] + ToolDeltas(fragments[1..])
  }

  lemma ToolDeltasStep(heard: seq<Delta>, fragments: seq<Fragment>)
    requires fragments != []
    ensures (heard + [Tool(fragments[0])]) + ToolDeltas(fragments[1..]) == heard + ToolDeltas(fragments)
  {
  }

  lemma {:induction false} CallsKeepText(cfg: Config, s: State, fragments: seq<Fragment>)
    requires TextKept(s)
    ensures TextKept(PushCalls(cfg, s, fragments))
    ensures PushCalls(cfg, s, fragments).heard == s.heard + ToolDeltas(fragments)
    decreases |fragments|
  {
    if fragments != [] {
      var next := PushCall(cfg, s, fragments[0]);
      CallKeepsText(cfg, s, fragments[0]);
      CallsKeepText(cfg, next, fragments[1..]);
      ToolDeltasStep(s.heard, fragments);
    }
  }

  lemma CallItemHoldsNoText(c: Codec, s: State, call: Call)
    requires TextKept(s)
    ensures TextKept(CloseCall(c, s, call))
    ensures var r := CloseCall(c, s, call);
            r.heard == s.heard && r.reasoning == s.reasoning && r.message == s.message
  {
    TextAppends(s.output, DoneItem(c, call));
  }

  lemma {:induction false} CallItemsHoldNoText(c: Codec, s: State, calls: seq<Call>)
    requires TextKept(s)
    ensures TextKept(CloseCalls(c, s, calls))
    ensures var r := CloseCalls(c, s, calls);
            r.heard == s.heard && r.reasoning == s.reasoning && r.message == s.message
    decreases |calls|
  {
    if calls != [] {
      if calls[0].announced {
        CallItemHoldsNoText(c, s, calls[0]);
      }
      CallItemsHoldNoText(c, if calls[0].announced then CloseCall(c, s, calls[0]) else s, calls[1..]);
    }
  }

  lemma CompletionKeepsText(cfg: Config, s: State, truncated: bool)
    requires TextKept(s) && s.started && !s.terminated
    ensures var r := Complete(cfg, s, truncated);
            TextKept(r) && r.heard == s.heard && r.reasoning.None? && r.message.None?
  {
    ReasoningClosingKeepsText(s);
    MessageClosingKeepsText(CloseReasoning(s));
    var quiet := CloseMessage(CloseReasoning(s));
    CallItemsHoldNoText(cfg.codec, quiet.(calls := []), quiet.calls);
    TextSame(CloseCalls(cfg.codec, quiet.(calls := []), quiet.calls), Complete(cfg, s, truncated));
  }

  // ----- what a frame contributes -----

  function ThinkDeltas(text: string): seq<Delta> { if text == "" then [] else [Think(text)] }

  function SayDeltas(text: string): seq<Delta> { if text == "" then [] else [Say(text)] }

  /** The contributions of one chunk, in the order they are taken. */
  function ChunkDeltas(chunk: Chunk): seq<Delta> {
    if chunk.error.Some? then []
    else ThinkDeltas(chunk.reasoning) + SayDeltas(chunk.content) + ToolDeltas(chunk.calls)
  }

  /** The same, read off a chunk's JSON place by place. */
  function ValueDeltas(v: Value): seq<Delta> {
    if U.Reports(v) then []
    else ThinkDeltas(U.ReasoningOf(v)) + SayDeltas(U.ContentOf(v)) + ToolDeltas(U.CallsFrom(v, 0))
  }

  lemma ReadDeltas(v: Value)
    ensures ChunkDeltas(ReadChunk(v)) == ValueDeltas(v)
  {
    U.ChunkRead(v);
  }

  function DataDeltas(cfg: Config, data: Bytes): seq<Delta> {
    if data == "" || cfg.codec.trim(data) == "[DONE]" || cfg.codec.parse(data).None? then []
    else ValueDeltas(cfg.codec.parse(data).value)
  }

  function FrameDeltas(cfg: Config, frame: Bytes): seq<Delta> {
    if cfg.codec.utf8(frame) then DataDeltas(cfg, DataOf("", frame)) else []
  }

  function FramesDeltas(cfg: Config, frames: seq<Bytes>): seq<Delta> {
    if frames == [] then []
    else FramesDeltas(cfg, frames[..|frames| - 1]) + FrameDeltas(cfg, frames[|frames| - 1])
  }

  lemma DeltasInOrder(heard: seq<Delta>, a: seq<Delta>, b: seq<Delta>, c: seq<Delta>)
    ensures ((heard + a) + b) + c == heard + (a + b + c)
  {
  }

  lemma ReasoningIsHeard(s: State, text: string)
    requires TextKept(s)
    ensures TextKept(TakeReasoning(s, text)) && TakeReasoning(s, text).heard == s.heard + ThinkDeltas(text)
  {
    if text != "" {
      ReasoningKeepsText(s, text);
    }
  }

  lemma ContentIsHeard(s: State, text: string)
    requires TextKept(s)
    ensures TextKept(TakeContent(s, text)) && TakeContent(s, text).heard == s.heard + SayDeltas(text)
  {
    if text != "" {
      SpeechKeepsText(s, text);
    }
  }

  lemma DeltasAreHeard(cfg: Config, s: State, chunk: Chunk)
    requires TextKept(s) && chunk.error.None?
    ensures TextKept(TakeDeltas(cfg, s, chunk)) && TakeDeltas(cfg, s, chunk).heard == s.heard + ChunkDeltas(chunk)
  {
    ReasoningIsHeard(s, chunk.reasoning);
    var thought := TakeReasoning(s, chunk.reasoning);
    ContentIsHeard(thought, chunk.content);
    CallsKeepText(cfg, TakeContent(thought, chunk.content), chunk.calls);
    DeltasInOrder(s.heard, ThinkDeltas(chunk.reasoning), SayDeltas(chunk.content), ToolDeltas(chunk.calls));
  }

  lemma MeteringKeepsText(cfg: Config, s: State, chunk: Chunk)
    ensures SameText(s, Metered(cfg, s, chunk))
  {
  }

  lemma ChunkIsHeard(cfg: Config, s: State, chunk: Chunk)
    requires TextKept(s) && !s.terminated
    ensures TextKept(HandleChunk(cfg, s, chunk)) && HandleChunk(cfg, s, chunk).heard == s.heard + ChunkDeltas(chunk)
  {
    if chunk.error.Some? {
      TextSame(s, Fail(s, chunk.error.value));
    } else {
      MeteringKeepsText(cfg, s, chunk);
      TextSame(s, Metered(cfg, s, chunk));
      DeltasAreHeard(cfg, Metered(cfg, s, chunk), chunk);
      if chunk.finish != "" {
        CompletionIsHeard(cfg, TakeDeltas(cfg, Metered(cfg, s, chunk), chunk), chunk.finish == "length");
      }
    }
  }

  lemma CompletionIsHeard(cfg: Config, s: State, truncated: bool)
    requires TextKept(s)
    ensures TextKept(Complete(cfg, s, truncated)) && Complete(cfg, s, truncated).heard == s.heard
  {
    if s.started && !s.terminated {
      CompletionKeepsText(cfg, s, truncated);
    } else if !s.terminated {
      TextSame(s, Fail(s, NO_CONTENT));
    }
  }

  lemma DataIsHeard(cfg: Config, s: State, data: Bytes)
    requires TextKept(s) && !s.terminated
    ensures var r := HandleData(cfg, s, data);
            TextKept(r) && r.heard == s.heard + DataDeltas(cfg, data)
  {
    if data != "" {
      if cfg.codec.trim(data) == "[DONE]" {
        CompletionIsHeard(cfg, s, false);
      } else if cfg.codec.parse(data).Some? {
        ReadDeltas(cfg.codec.parse(data).value);
        ChunkIsHeard(cfg, s, ReadChunk(cfg.codec.parse(data).value));
      }
    }
  }

  lemma FrameIsHeard(cfg: Config, s: State, frame: Bytes)
    requires TextKept(s) && !s.terminated
    ensures var r := HandleFrame(cfg, s, frame);
            TextKept(r) && r.heard == s.heard + FrameDeltas(cfg, frame)
  {
    if cfg.codec.utf8(frame) {
      DataIsHeard(cfg, s, DataOf("", frame));
    }
  }

  /** Text is kept, and what was heard is what the taken frames say. */
  ghost predicate Faithful(cfg: Config, x: Intake) {
    TextKept(x.state) && x.state.heard == FramesDeltas(cfg, x.taken)
  }

  lemma FramesDeltasAppend(cfg: Config, frames: seq<Bytes>, frame: Bytes)
    ensures FramesDeltas(cfg, frames + [frame]) == FramesDeltas(cfg, frames) + FrameDeltas(cfg, frame)
  {
    assert (frames + [frame])[..|frames|] == frames;
  }

  lemma {:induction false} DrainIsFaithful(cfg: Config, x: Intake)
    requires Faithful(cfg, x) && !x.state.terminated
    ensures Faithful(cfg, Drain(cfg, x))
    decreases |x.buffer|
  {
    match Framing.EagerFrameLen(x.buffer)
    case None =>
    case Some(n) =>
      var frame := x.buffer[..n];
      FrameIsHeard(cfg, x.state, frame);
      FramesDeltasAppend(cfg, x.taken, frame);
      var next := Intake(HandleFrame(cfg, x.state, frame), x.buffer[n..], x.taken + [frame]);
      if !next.state.terminated {
        DrainIsFaithful(cfg, next);
      }
  }

  lemma FailureIsFaithful(cfg: Config, x: Intake, message: string)
    requires Faithful(cfg, x)
    ensures Faithful(cfg, x.(state := Fail(x.state, message)))
  {
    TextSame(x.state, Fail(x.state, message));
  }

  lemma {:induction false} PushAllIsFaithful(cfg: Config, x: Intake, chunks: seq<Bytes>)
    requires Faithful(cfg, x)
    ensures Faithful(cfg, PushAll(cfg, x, chunks))
    decreases |chunks|
  {
    if chunks != [] && !x.state.finished {
      if !x.state.terminated {
        if |x.buffer| + |chunks[0]| > cfg.maxBuffered {
          FailureIsFaithful(cfg, x, TOO_LARGE);
        } else {
          DrainIsFaithful(cfg, x.(buffer := x.buffer + chunks[0]));
        }
      }
      PushAllIsFaithful(cfg, Push(cfg, x, chunks[0]), chunks[1..]);
    }
  }

  lemma RunIsFaithful(cfg: Config, chunks: seq<Bytes>, end: End)
    ensures Faithful(cfg, Run(cfg, chunks, end))
  {
    PushAllIsFaithful(cfg, Begin(cfg), chunks);
    var x := PushAll(cfg, Begin(cfg), chunks);
    if !x.state.finished {
      FailureIsFaithful(cfg, x, if end.Broken? then end.message else ENDED_EARLY);
    }
  }

  lemma CutAccounts(taken: seq<Bytes>, buffer: Bytes, n: nat)
    requires n <= |buffer|
    ensures Concat(taken + [buffer[..n]]) + buffer[n..] == Concat(taken) + buffer
  {
    ConcatAppend(taken, [buffer[..n]]);
    assert Concat([buffer[..n]]) == buffer[..n];
    assert (Concat(taken) + buffer[..n]) + buffer[n..] == Concat(taken) + buffer;
  }

  /** The bytes not yet framed, and those framed, are what was pushed. */
  lemma {:induction false} DrainAccounts(cfg: Config, x: Intake)
    ensures Concat(Drain(cfg, x).taken) + Drain(cfg, x).buffer == Concat(x.taken) + x.buffer
    decreases |x.buffer|
  {
    match Framing.EagerFrameLen(x.buffer)
    case None =>
    case Some(n) =>
      var frame := x.buffer[..n];
      var next := Intake(HandleFrame(cfg, x.state, frame), x.buffer[n..], x.taken + [frame]);
      CutAccounts(x.taken, x.buffer, n);
      if !next.state.terminated {
        DrainAccounts(cfg, next);
      }
  }

  lemma PrefixStep(taken: Bytes, buffer: Bytes, chunk: Bytes, rest: Bytes, held: Bytes)
    requires held == taken + (buffer + chunk)
    ensures held + rest == taken + buffer + (chunk + rest)
  {
  }

  lemma {:induction false} TakenIsPrefix(cfg: Config, x: Intake, chunks: seq<Bytes>)
    ensures Concat(PushAll(cfg, x, chunks).taken) <= Concat(x.taken) + x.buffer + Concat(chunks)
    decreases |chunks|
  {
    if chunks != [] && !x.state.finished {
      var next := Push(cfg, x, chunks[0]);
      if !x.state.terminated && |x.buffer| + |chunks[0]| <= cfg.maxBuffered {
        DrainAccounts(cfg, x.(buffer := x.buffer + chunks[0]));
        PrefixStep(Concat(x.taken), x.buffer, chunks[0], Concat(chunks[1..]), Concat(next.taken) + next.buffer);
        TakenIsPrefix(cfg, next, chunks[1..]);
      } else {
        TerminatedTakesNothing(cfg, next, chunks[1..]);
      }
    }
  }

  lemma {:induction false} TerminatedTakesNothing(cfg: Config, x: Intake, chunks: seq<Bytes>)
    requires x.state.terminated
    ensures PushAll(cfg, x, chunks) == x
    decreases |chunks|
  {
    if chunks != [] && !x.state.finished {
      TerminatedTakesNothing(cfg, x, chunks[1..]);
    }
  }

  /** The response a completed stream ends with. */
  predicate CompletedWith(events: seq<Event>, response: Envelope) {
    events != []
    && (events[|events| - 1].body == Completed(response) || events[|events| - 1].body == Incomplete(response))
  }

  /** At every completion, truncated or not, the reasoning items of `output`
      hold all the reasoning the upstream sent, in order, and the message items
      all its content; and what counts as sent is read off the frames taken,
      which are a prefix of the body. */
  lemma TextConservation(cfg: Config, chunks: seq<Bytes>, end: End, response: Envelope)
    requires CompletedWith(Run(cfg, chunks, end).state.events, response)
    ensures var taken := Run(cfg, chunks, end).taken;
            && ReasoningText(response.output) == Thought(FramesDeltas(cfg, taken))
            && MessageText(response.output) == Spoken(FramesDeltas(cfg, taken))
            && Concat(taken) <= Concat(chunks)
  {
    RunIsFaithful(cfg, chunks, end);
    Conformance.RunConforms(cfg, chunks, end);
    C.CompletedStream(Run(cfg, chunks, end).state.events, response, 0);
    TakenIsPrefix(cfg, Begin(cfg), chunks);
  }
}
