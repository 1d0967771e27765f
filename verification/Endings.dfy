/** How a run ends and what its response is called, read off the frames taken
    place by place. */
module Endings {
  import opened Prelude
  import opened Json
  import opened Responses
  import opened Synthesizer
  import Framing
  import U = Upstream
  import Conservation
  import Conformance

  // ----- what a frame calls for -----

  datatype Signal = Silent | Goes | Stops(truncated: bool) | Sentinel | Faulty

  function SignalOf(cfg: Config, frame: Bytes): Signal {
    if !cfg.codec.utf8(frame) then Faulty
    else
      var data := DataOf("", frame);
      if data == "" then Silent
      else if cfg.codec.trim(data) == "[DONE]" then Sentinel
      else ValueSignal(cfg.codec.parse(data))
  }

  function ValueSignal(v: Option<Value>): Signal {
    if v.None? || U.Reports(v.value) then Faulty
    else if U.FinishOf(v.value) == "" then Goes
    else Stops(U.FinishOf(v.value) == "length")
  }

  /** The chunk a frame holds, when it is one that says something. */
  function ChunkOf(cfg: Config, frame: Bytes): Option<Value> {
    if SignalOf(cfg, frame).Goes? || SignalOf(cfg, frame).Stops? then cfg.codec.parse(DataOf("", frame)) else None
  }

  predicate Quiet(cfg: Config, frame: Bytes) { SignalOf(cfg, frame).Silent? || SignalOf(cfg, frame).Goes? }

  predicate AllQuiet(cfg: Config, frames: seq<Bytes>) { forall i :: 0 <= i < |frames| ==> Quiet(cfg, frames[i]) }

  /** The first chunk opens the response. */
  function OpenedBy(cfg: Config, frames: seq<Bytes>): Option<Value> {
    if frames == [] then None
    else
      var before := OpenedBy(cfg, frames[..|frames| - 1]);
      if before.Some? then before else ChunkOf(cfg, frames[|frames| - 1])
  }

  /** The last chunk that counts tokens is the one told of. */
  function MeteredBy(cfg: Config, frames: seq<Bytes>): Option<Value> {
    if frames == [] then None
    else
      var usage := At(ChunkOf(cfg, frames[|frames| - 1]), "usage");
      if usage.Some? && usage.value.Obj? then usage else MeteredBy(cfg, frames[..|frames| - 1])
  }

  lemma TakeOneMore(cfg: Config, frames: seq<Bytes>, frame: Bytes)
    ensures OpenedBy(cfg, frames + [frame])
         == if OpenedBy(cfg, frames).Some? then OpenedBy(cfg, frames) else ChunkOf(cfg, frame)
    ensures var usage := At(ChunkOf(cfg, frame), "usage");
            MeteredBy(cfg, frames + [frame])
            == if usage.Some? && usage.value.Obj? then usage else MeteredBy(cfg, frames)
  {
    assert (frames + [frame])[..|frames|] == frames;
  }

  // ----- what the state is told -----

  function StemOf(cfg: Config, opening: Value): string {
    SanitizeIdentifier(if TextOf(Get(opening, "id")) != "" then TextOf(Get(opening, "id")) else cfg.requestKey)
  }

  function ModelOf(cfg: Config, opening: Value): string {
    if TextOf(Get(opening, "model")) != "" then TextOf(Get(opening, "model")) else cfg.model
  }

  predicate UsageTold(told: Option<Value>, given: Option<Value>) {
    told.Some? == given.Some? && (told.Some? ==> U.Tells(told.value, U.UsageAt(given.value)))
  }

  predicate Named(cfg: Config, s: State, opening: Option<Value>) {
    match opening
    case None => !s.started && s.responseId == "" && s.model == cfg.model
    case Some(v) =>
      && s.started && s.responseId == "resp_" + StemOf(cfg, v) && s.idStem == StemOf(cfg, v)
      && s.model == ModelOf(cfg, v)
  }

  predicate Told(cfg: Config, s: State, frames: seq<Bytes>) {
    Named(cfg, s, OpenedBy(cfg, frames)) && UsageTold(s.usage, MeteredBy(cfg, frames))
  }

  /** Nothing but text and calls differs. */
  predicate SameName(s: State, r: State) {
    && r.started == s.started && r.responseId == s.responseId && r.idStem == s.idStem && r.model == s.model
    && r.usage == s.usage && r.terminated == s.terminated && r.finished == s.finished
  }

  lemma ClosingTextKeepsName(s: State)
    ensures SameName(s, CloseReasoning(s)) && SameName(s, CloseMessage(s))
  {
  }

  lemma ReasoningKeepsName(s: State, text: string)
    ensures SameName(s, TakeReasoning(s, text))
  {
    var closed := CloseMessage(s);
    ClosingTextKeepsName(s);
    OpeningKeepsName(closed);
    assert text != "" ==> TakeReasoning(s, text)
                          == ExtendReasoning(if closed.reasoning.None? then OpenReasoning(closed) else closed, text);
  }

  lemma ContentKeepsName(s: State, text: string)
    ensures SameName(s, TakeContent(s, text))
  {
    var closed := CloseReasoning(s);
    ClosingTextKeepsName(s);
    OpeningKeepsName(closed);
    assert text != "" ==> TakeContent(s, text)
                          == ExtendMessage(if closed.message.None? then OpenMessage(closed) else closed, text);
  }

  lemma OpeningKeepsName(s: State)
    ensures SameName(s, OpenReasoning(s)) && SameName(s, OpenMessage(s))
  {
  }

  lemma CallKeepsName(cfg: Config, s: State, f: Fragment)
    ensures SameName(s, PushCall(cfg, s, f))
  {
    ClosingTextKeepsName(s);
    ClosingTextKeepsName(CloseReasoning(s));
    var a := Arrive(s, f);
    assert SameName(s, a);
    StepsKeepName(cfg, a, f);
  }

  lemma StepsKeepName(cfg: Config, a: State, f: Fragment)
    requires f.index < |a.calls|
    ensures SameName(a, AddArguments(Announce(Relabel(cfg, Identify(a, f.index), f), f.index), f.index, f.arguments))
  {
    LabelKeepsName(cfg, a, f);
    AnnouncingKeepsName(Relabel(cfg, Identify(a, f.index), f), f.index, f.arguments);
  }

  lemma LabelKeepsName(cfg: Config, a: State, f: Fragment)
    requires f.index < |a.calls|
    ensures SameName(a, Relabel(cfg, Identify(a, f.index), f))
  {
  }

  lemma AnnouncingKeepsName(s: State, i: nat, text: string)
    requires i < |s.calls|
    ensures SameName(s, AddArguments(Announce(s, i), i, text))
  {
  }

  lemma {:induction false} CallsKeepName(cfg: Config, s: State, fragments: seq<Fragment>)
    ensures SameName(s, PushCalls(cfg, s, fragments))
    decreases |fragments|
  {
    if fragments != [] {
      CallKeepsName(cfg, s, fragments[0]);
      CallsKeepName(cfg, PushCall(cfg, s, fragments[0]), fragments[1..]);
    }
  }

  lemma DeltasKeepName(cfg: Config, s: State, chunk: Chunk)
    ensures SameName(s, TakeDeltas(cfg, s, chunk))
  {
    ReasoningKeepsName(s, chunk.reasoning);
    var thought := TakeReasoning(s, chunk.reasoning);
    ContentKeepsName(thought, chunk.content);
    CallsKeepName(cfg, TakeContent(thought, chunk.content), chunk.calls);
  }

  lemma {:induction false} ClosingCallsKeepsName(c: Codec, s: State, calls: seq<Call>)
    ensures SameName(s, CloseCalls(c, s, calls))
    decreases |calls|
  {
    if calls != [] {
      ClosingCallsKeepsName(c, if calls[0].announced then CloseCall(c, s, calls[0]) else s, calls[1..]);
    }
  }

  lemma ClosingKeepsName(c: Codec, s: State)
    ensures SameName(s, CloseAll(c, s))
  {
    ClosingTextKeepsName(s);
    ClosingTextKeepsName(CloseReasoning(s));
    var quiet := CloseMessage(CloseReasoning(s));
    ClosingCallsKeepsName(c, quiet.(calls := []), quiet.calls);
  }

  // ----- one frame -----

  function LastBody(s: State): Body
    requires s.events != []
  {
    s.events[|s.events| - 1].body
  }

  predicate Carries(s: State, response: Envelope) {
    response.id == s.responseId && response.model == s.model && response.usage == s.usage
  }

  /** What the end of a run shows: an error, or a response that carries the
      state's names and says whether it is whole. */
  predicate Shows(s: State, truncated: bool) {
    && s.terminated && s.events != []
    && if truncated
       then LastBody(s).Incomplete? && Carries(s, LastBody(s).response) && LastBody(s).response.status == Truncated
       else LastBody(s).Completed? && Carries(s, LastBody(s).response) && LastBody(s).response.status == Finished
  }

  predicate Failed(s: State) { s.terminated && s.events != [] && LastBody(s).Error? }

  lemma FailureFails(s: State, message: string)
    requires !s.terminated
    ensures Failed(Fail(s, message)) && LastBody(Fail(s, message)).message == message
    ensures var r := Fail(s, message);
            r.started == s.started && r.responseId == s.responseId && r.idStem == s.idStem && r.model == s.model
            && r.usage == s.usage
  {
  }

  lemma CompletionShows(cfg: Config, s: State, truncated: bool)
    requires s.started && !s.terminated
    ensures Shows(Complete(cfg, s, truncated), truncated)
    ensures var r := Complete(cfg, s, truncated);
            r.started && r.responseId == s.responseId && r.idStem == s.idStem && r.model == s.model
            && r.usage == s.usage
  {
    ClosingKeepsName(cfg.codec, s);
  }

  lemma MeteringNames(cfg: Config, s: State, v: Value, opening: Option<Value>, metered: Option<Value>)
    requires Named(cfg, s, opening) && UsageTold(s.usage, metered) && !U.Reports(v)
    ensures var r := Metered(cfg, s, ReadChunk(v));
            var usage := Get(v, "usage");
            && Named(cfg, r, if opening.Some? then opening else Some(v)) && r.started
            && UsageTold(r.usage, if usage.Some? && usage.value.Obj? then usage else metered)
            && r.terminated == s.terminated && r.finished == s.finished
  {
    U.ChunkRead(v);
    U.UsageRead(v);
  }

  lemma ChunkEnds(cfg: Config, s: State, v: Value, opening: Option<Value>, metered: Option<Value>)
    requires !s.terminated && Named(cfg, s, opening) && UsageTold(s.usage, metered) && !U.Reports(v)
    ensures var r := HandleChunk(cfg, s, ReadChunk(v));
            var usage := Get(v, "usage");
            && Named(cfg, r, if opening.Some? then opening else Some(v))
            && UsageTold(r.usage, if usage.Some? && usage.value.Obj? then usage else metered)
            && if U.FinishOf(v) == "" then !r.terminated else Shows(r, U.FinishOf(v) == "length")
  {
    var chunk := ReadChunk(v);
    U.ChunkRead(v);
    MeteringNames(cfg, s, v, opening, metered);
    var begun := Metered(cfg, s, chunk);
    DeltasKeepName(cfg, begun, chunk);
    var taken := TakeDeltas(cfg, begun, chunk);
    if chunk.finish != "" {
      CompletionShows(cfg, taken, chunk.finish == "length");
    }
  }

  /** An error the provider reports is passed on in its own words. */
  predicate Quotes(cfg: Config, frame: Bytes, message: string) {
    var v := cfg.codec.parse(DataOf("", frame));
    cfg.codec.utf8(frame) && v.Some? && U.Reports(v.value) ==>
      message == U.ReportOf(v.value)
  }

  /** What a frame does to a run that goes on. */
  ghost predicate EndsBy(cfg: Config, s: State, r: State, frame: Bytes) {
    match SignalOf(cfg, frame)
    case Silent => !r.terminated
    case Goes => !r.terminated
    case Stops(truncated) => Shows(r, truncated)
    case Sentinel => if s.started then Shows(r, false) else Failed(r)
    case Faulty => Failed(r) && Quotes(cfg, frame, LastBody(r).message)
  }

  lemma FrameEnds(cfg: Config, s: State, frames: seq<Bytes>, frame: Bytes)
    requires !s.terminated && Told(cfg, s, frames)
    ensures EndsBy(cfg, s, HandleFrame(cfg, s, frame), frame)
    ensures Told(cfg, HandleFrame(cfg, s, frame), frames + [frame])
  {
    TakeOneMore(cfg, frames, frame);
    if !cfg.codec.utf8(frame) {
      FailureFails(s, NOT_UTF8);
    } else {
      DataEnds(cfg, s, frames, frame);
    }
  }

  lemma DataEnds(cfg: Config, s: State, frames: seq<Bytes>, frame: Bytes)
    requires !s.terminated && Told(cfg, s, frames) && cfg.codec.utf8(frame)
    requires OpenedBy(cfg, frames + [frame])
          == if OpenedBy(cfg, frames).Some? then OpenedBy(cfg, frames) else ChunkOf(cfg, frame)
    requires var usage := At(ChunkOf(cfg, frame), "usage");
             MeteredBy(cfg, frames + [frame])
             == if usage.Some? && usage.value.Obj? then usage else MeteredBy(cfg, frames)
    ensures EndsBy(cfg, s, HandleData(cfg, s, DataOf("", frame)), frame)
    ensures Told(cfg, HandleData(cfg, s, DataOf("", frame)), frames + [frame])
  {
    var data := DataOf("", frame);
    if data != "" {
      if cfg.codec.trim(data) == "[DONE]" {
        if s.started {
          CompletionShows(cfg, s, false);
        } else {
          FailureFails(s, NO_CONTENT);
        }
      } else if cfg.codec.parse(data).None? {
        FailureFails(s, BAD_JSON);
      } else {
        ParsedEnds(cfg, s, cfg.codec.parse(data).value, OpenedBy(cfg, frames), MeteredBy(cfg, frames));
      }
    }
  }

  lemma ParsedEnds(cfg: Config, s: State, v: Value, opening: Option<Value>, metered: Option<Value>)
    requires !s.terminated && Named(cfg, s, opening) && UsageTold(s.usage, metered)
    ensures var r := HandleChunk(cfg, s, ReadChunk(v));
            if U.Reports(v) then
              && Failed(r) && LastBody(r).message == U.ReportOf(v)
              && Named(cfg, r, opening) && UsageTold(r.usage, metered)
            else
              var usage := Get(v, "usage");
              && Named(cfg, r, if opening.Some? then opening else Some(v))
              && UsageTold(r.usage, if usage.Some? && usage.value.Obj? then usage else metered)
              && if U.FinishOf(v) == "" then !r.terminated else Shows(r, U.FinishOf(v) == "length")
  {
    U.ChunkRead(v);
    if U.Reports(v) {
      FailureFails(s, ReadChunk(v).error.value);
    } else {
      ChunkEnds(cfg, s, v, opening, metered);
    }
  }

  // ----- runs -----

  /** The last frame taken ended the run, in its way. */
  ghost predicate OverBy(cfg: Config, s: State, taken: seq<Bytes>) {
    && taken != [] && AllQuiet(cfg, taken[..|taken| - 1])
    && match SignalOf(cfg, taken[|taken| - 1])
       case Stops(truncated) => Shows(s, truncated)
       case Sentinel => if OpenedBy(cfg, taken[..|taken| - 1]).Some? then Shows(s, false) else Failed(s)
       case Faulty => Failed(s) && Quotes(cfg, taken[|taken| - 1], LastBody(s).message)
       case _ => false
  }

  ghost predicate Standing(cfg: Config, s: State, taken: seq<Bytes>) {
    && Told(cfg, s, taken)
    && if s.terminated then OverBy(cfg, s, taken) || (AllQuiet(cfg, taken) && Failed(s)) else AllQuiet(cfg, taken)
  }

  lemma FrameStands(cfg: Config, s: State, taken: seq<Bytes>, frame: Bytes)
    requires Standing(cfg, s, taken) && !s.terminated
    ensures Standing(cfg, HandleFrame(cfg, s, frame), taken + [frame])
  {
    FrameEnds(cfg, s, taken, frame);
    assert (taken + [frame])[..|taken|] == taken && (taken + [frame])[|taken|] == frame;
  }

  lemma {:induction false} DrainStands(cfg: Config, x: Intake)
    requires Standing(cfg, x.state, x.taken) && !x.state.terminated
    ensures Standing(cfg, Drain(cfg, x).state, Drain(cfg, x).taken)
    decreases |x.buffer|
  {
    match Framing.EagerFrameLen(x.buffer)
    case None =>
    case Some(n) =>
      var frame := x.buffer[..n];
      FrameStands(cfg, x.state, x.taken, frame);
      var next := Intake(HandleFrame(cfg, x.state, frame), x.buffer[n..], x.taken + [frame]);
      if !next.state.terminated {
        DrainStands(cfg, next);
      }
  }

  lemma FailureStands(cfg: Config, s: State, taken: seq<Bytes>, message: string)
    requires Standing(cfg, s, taken)
    ensures Standing(cfg, Fail(s, message), taken)
  {
    if !s.terminated {
      FailureFails(s, message);
    }
  }

  lemma {:induction false} PushAllStands(cfg: Config, x: Intake, chunks: seq<Bytes>)
    requires Standing(cfg, x.state, x.taken)
    ensures Standing(cfg, PushAll(cfg, x, chunks).state, PushAll(cfg, x, chunks).taken)
    decreases |chunks|
  {
    if chunks != [] && !x.state.finished {
      if !x.state.terminated {
        if |x.buffer| + |chunks[0]| > cfg.maxBuffered {
          FailureStands(cfg, x.state, x.taken, TOO_LARGE);
        } else {
          DrainStands(cfg, x.(buffer := x.buffer + chunks[0]));
        }
      }
      PushAllStands(cfg, Push(cfg, x, chunks[0]), chunks[1..]);
    }
  }

  lemma RunStands(cfg: Config, chunks: seq<Bytes>, end: End)
    ensures var x := Run(cfg, chunks, end); Standing(cfg, x.state, x.taken) && x.state.terminated
  {
    PushAllStands(cfg, Begin(cfg), chunks);
    var x := PushAll(cfg, Begin(cfg), chunks);
    if !x.state.finished {
      FailureStands(cfg, x.state, x.taken, if end.Broken? then end.message else ENDED_EARLY);
    }
    Conformance.RunConforms(cfg, chunks, end);
  }

  function LastSignal(cfg: Config, taken: seq<Bytes>): Option<Signal> {
    if taken == [] then None else Some(SignalOf(cfg, taken[|taken| - 1]))
  }

  predicate AnyOf(frames: seq<Bytes>, p: Bytes -> bool) { exists i :: 0 <= i < |frames| && p(frames[i]) }

  lemma AnyOfStep(frames: seq<Bytes>, p: Bytes -> bool)
    requires frames != []
    ensures AnyOf(frames, p) <==> AnyOf(frames[..|frames| - 1], p) || p(frames[|frames| - 1])
  {
    var front := frames[..|frames| - 1];
    if i :| 0 <= i < |front| && p(front[i]) {
      assert p(frames[i]);
    }
    if i :| 0 <= i < |frames| && p(frames[i]) {
      assert i < |front| ==> p(front[i]);
    }
  }

  function Going(cfg: Config): Bytes -> bool { frame => SignalOf(cfg, frame).Goes? }

  /** Some chunk came before the last frame. */
  predicate OpenBefore(cfg: Config, taken: seq<Bytes>) {
    taken != [] && AnyOf(taken[..|taken| - 1], Going(cfg))
  }

  lemma {:induction false} OpenedWhen(cfg: Config, frames: seq<Bytes>)
    requires AllQuiet(cfg, frames)
    ensures OpenedBy(cfg, frames).Some? <==> AnyOf(frames, Going(cfg))
  {
    if frames != [] {
      var front, last := frames[..|frames| - 1], frames[|frames| - 1];
      assert forall i :: 0 <= i < |front| ==> front[i] == frames[i];
      OpenedWhen(cfg, front);
      AnyOfStep(frames, Going(cfg));
      assert Quiet(cfg, last);
      QuietOpens(cfg, last);
    }
  }

  lemma QuietOpens(cfg: Config, frame: Bytes)
    requires Quiet(cfg, frame)
    ensures ChunkOf(cfg, frame).Some? <==> SignalOf(cfg, frame).Goes?
  {
  }

  /** For every run, however it is cut: only its last frame can end it. It ends
      `incomplete` exactly when that frame stops for length, `completed` exactly
      when it stops otherwise or is the sentinel after a chunk, and in an error
      otherwise, in the provider's words when the provider reports one. */
  lemma RunEnding(cfg: Config, chunks: seq<Bytes>, end: End)
    ensures var x := Run(cfg, chunks, end);
            x.state.events != []
            && var last, signal := LastBody(x.state), LastSignal(cfg, x.taken);
            && (forall i :: 0 <= i < |x.taken| - 1 ==> Quiet(cfg, x.taken[i]))
            && (last.Incomplete? <==> signal == Some(Stops(true)))
            && (last.Completed? <==>
                  signal == Some(Stops(false)) || (signal == Some(Sentinel) && OpenBefore(cfg, x.taken)))
            && (last.Error? <==> !last.Incomplete? && !last.Completed?)
            && (signal == Some(Faulty) ==> Quotes(cfg, x.taken[|x.taken| - 1], last.message))
  {
    var x := Run(cfg, chunks, end);
    RunStands(cfg, chunks, end);
    Conformance.RunShape(cfg, chunks, end);
    if x.taken != [] {
      var front := x.taken[..|x.taken| - 1];
      if AllQuiet(cfg, front) {
        OpenedWhen(cfg, front);
        assert forall i :: 0 <= i < |front| ==> front[i] == x.taken[i];
      }
    }
  }

  /** Every finished response is named by the first chunk taken and tells of the
      last usage taken. */
  lemma ResponseNamed(cfg: Config, chunks: seq<Bytes>, end: End, response: Envelope)
    requires Conservation.CompletedWith(Run(cfg, chunks, end).state.events, response)
    ensures var taken := Run(cfg, chunks, end).taken;
            && OpenedBy(cfg, taken).Some?
            && response.id == "resp_" + StemOf(cfg, OpenedBy(cfg, taken).value)
            && response.model == ModelOf(cfg, OpenedBy(cfg, taken).value)
            && UsageTold(response.usage, MeteredBy(cfg, taken))
            && response.status == if LastSignal(cfg, taken) == Some(Stops(true)) then Truncated else Finished
  {
    RunStands(cfg, chunks, end);
    RunEnding(cfg, chunks, end);
    var x := Run(cfg, chunks, end);
    assert OverBy(cfg, x.state, x.taken);
  }
}
