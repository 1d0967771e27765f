/** The gateway's stream validator: reassembles frames from arbitrary chunks
    and ends every stream with exactly one terminal event. */
module Validator {
  import opened Prelude
  import opened Json
  import opened Framing
  import opened Inspect
  import opened Reassembly

  /** What one validated stream is given: the text codec, the event kinds, the
      frame limit, the wording of its failures, the clock reading stamped on
      them and the choice of model among response headers. */
  datatype Config = Config(
    codec: Codec,
    events: Events,
    maxEventBytes: nat,
    diagnosis: Reason -> string,
    failureText: string -> string,
    cancelledText: string,
    now: nat,
    headerModel: Value -> Option<string>)

  function Nullable(text: Option<string>): Value {
    if text.Some? then Str(text.value) else Null
  }

  function OrDefault(c: Codec, id: Option<string>, default: string): string {
    if id.Some? && SafeIdentifier(c, id.value) then id.value else default
  }

  const DEFAULT_ID := "resp_muse_codex_protocol_error"

  function FailedResponse(cfg: Config, seen: Identity, code: string, message: string,
                          parameter: Option<string>): Value {
    Obj(map[
      "id" := Str(OrDefault(cfg.codec, seen.responseId, DEFAULT_ID)),
      "object" := Str("response"),
      "created_at" := Num(cfg.now),
      "status" := Str("failed"),
      "completed_at" := Null,
      "output" := Arr([]),
      "usage" := Null,
      "error" := Obj(map["code" := Str(code), "message" := Str(message), "param" := Nullable(parameter)]),
      "previous_response_id" := Null,
      "model" := Str(OrDefault(cfg.codec, seen.model, "muse-codex")),
      "metadata" := Obj(map[]),
      "incomplete_details" := Null])
  }

  function FailureEvent(cfg: Config, seen: Identity, sequence: nat, code: string, message: string,
                        parameter: Option<string>): Value {
    Obj(map[
      "type" := Str("response.failed"),
      "sequence_number" := Num(sequence),
      "response" := FailedResponse(cfg, seen, code, message, parameter)])
  }

  function SseFrame(c: Codec, kind: string, payload: Value): Bytes {
    "event: " + kind + "\n" + "data: " + c.encode(payload) + "\n\n"
  }

  function FailureFrame(cfg: Config, seen: Identity, sequence: nat, code: string, message: string,
                        parameter: Option<string>): Bytes {
    SseFrame(cfg.codec, "response.failed", FailureEvent(cfg, seen, sequence, code, message, parameter))
  }

  function SaturatingNext(n: nat): nat { if n >= U64_MAX then U64_MAX else n + 1 }

  function ProtocolFailure(cfg: Config, seen: Identity, reason: Reason): Bytes {
    FailureFrame(cfg, seen, SaturatingNext(seen.lastSequence), "invalid_request", cfg.diagnosis(reason), None)
  }

  /** The static failure that replaces a provider's own error event. */
  datatype StreamFailure = StreamFailure(code: string, message: string, parameter: Option<string>)

  predicate SafeParameter(p: string) {
    p != "" && |p| <= 128
    && forall i :: 0 <= i < |p| ==> IsAlphanumeric(p[i]) || p[i] in {'_', '-', '.', '[', ']'}
  }

  function FailureCode(code: Option<string>): string {
    if code.None? then "invalid_request"
    else if code.value == "usage_limit_reached" then "rate_limit_exceeded"
    else if code.value in {"context_length_exceeded", "rate_limit_exceeded", "invalid_api_key", "model_not_found",
                           "insufficient_quota"}
    then code.value
    else "invalid_request"
  }

  function Sanitize(cfg: Config, value: Value): StreamFailure {
    var nested := At(Get(value, "response"), "error");
    var error :=
      if nested.Some? then nested.value
      else if Get(value, "error").Some? then Get(value, "error").value
      else value;
    var code := FailureCode(AsStr(Get(error, "code")));
    var parameter := AsStr(Get(error, "param"));
    StreamFailure(code, cfg.failureText(code),
                  if parameter.Some? && SafeParameter(parameter.value) then parameter else None)
  }

  function FailureOf(cfg: Config, event: Inspected): StreamFailure {
    if event.kind == "response.cancelled" then StreamFailure("invalid_request", cfg.cancelledText, None)
    else Sanitize(cfg, event.value)
  }

  function Learn(c: Codec, known: Option<string>, reported: Option<string>): Option<string> {
    if reported.Some? && SafeIdentifier(c, reported.value) then reported else known
  }

  function ReportedModel(cfg: Config, value: Value): Option<string> {
    var nested := At(Get(value, "response"), "headers");
    var fromResponse := if nested.Some? then cfg.headerModel(nested.value) else None;
    if fromResponse.Some? then fromResponse
    else if Get(value, "headers").Some? then cfg.headerModel(Get(value, "headers").value)
    else None
  }

  /** Tracks identity and sequence, also for events that are then dropped. */
  function Observe(cfg: Config, seen: Identity, event: Inspected): Identity {
    var c := cfg.codec;
    var response := Get(event.value, "response");
    Identity(
      Learn(c, Learn(c, seen.responseId, AsStr(At(response, "id"))), AsStr(Get(event.value, "response_id"))),
      Learn(c, Learn(c, seen.model, AsStr(At(response, "model"))), ReportedModel(cfg, event.value)),
      if event.sequence.Some? && event.sequence.value > seen.lastSequence then event.sequence.value
      else seen.lastSequence)
  }

  function Judge(cfg: Config, seen: Identity, frame: Bytes): Verdict {
    match InspectFrame(cfg.codec, cfg.events, frame)
    case Reject(reason) => Stop(seen, ProtocolFailure(cfg, seen, reason))
    case Drop(event) => GoOn(Observe(cfg, seen, event), false)
    case Keep(event) => JudgeKept(cfg, Observe(cfg, seen, event), event, frame)
  }

  /** A kept event, once observed: provider failures are replaced by a static
      failure, other terminal events end the stream as they are. */
  function JudgeKept(cfg: Config, seen: Identity, event: Inspected, frame: Bytes): Verdict {
    if cfg.events.failing(event.kind) then
      var failure := FailureOf(cfg, event);
      Stop(seen, FailureFrame(cfg, seen, seen.lastSequence, failure.code, failure.message, failure.parameter))
    else if cfg.events.terminal(event.kind) then Stop(seen, frame)
    else GoOn(seen, true)
  }

  function GatewayReader(cfg: Config): Reader {
    Reader(cfg.maxEventBytes,
           (seen, frame) => Judge(cfg, seen, frame),
           (seen, reason) => ProtocolFailure(cfg, seen, reason))
  }

  /** The validator object. `delivered` is the history of frames already taken
      by the client; `pending` holds those still queued. */
  class Stream {
    const cfg: Config
    var buffer: Bytes
    var pending: seq<Bytes>
    var finished: bool
    var responseId: Option<string>
    var model: Option<string>
    var lastSequence: nat
    ghost var delivered: seq<Bytes>

    ghost function View(): State
      reads this
    {
      State(buffer, delivered + pending, finished, Identity(responseId, model, lastSequence))
    }

    constructor (cfg: Config)
      ensures this.cfg == cfg && View() == INITIAL && pending == []
    {
      this.cfg := cfg;
      buffer, pending, finished := "", [], false;
      responseId, model, lastSequence := None, None, 0;
      delivered := [];
    }

    method Enqueue(frame: Bytes)
      modifies this`pending
      ensures View() == old(View()).(out := old(View()).out + [frame])
    {
      pending := pending + [frame];
      assert delivered + pending == (delivered + old(pending)) + [frame];
    }

    method ObserveEvent(event: Inspected)
      modifies this`lastSequence, this`responseId, this`model
      ensures View() == old(View()).(seen := Observe(cfg, old(View()).seen, event))
    {
      if event.sequence.Some? && event.sequence.value > lastSequence {
        lastSequence := event.sequence.value;
      }
      var response := Get(event.value, "response");
      if response.Some? {
        var id := AsStr(At(response, "id"));
        if id.Some? && SafeIdentifier(cfg.codec, id.value) {
          responseId := id;
        }
        var named := AsStr(At(response, "model"));
        if named.Some? && SafeIdentifier(cfg.codec, named.value) {
          model := named;
        }
      }
      var id := AsStr(Get(event.value, "response_id"));
      if id.Some? && SafeIdentifier(cfg.codec, id.value) {
        responseId := id;
      }
      var reported := ReportedModel(cfg, event.value);
      if reported.Some? && SafeIdentifier(cfg.codec, reported.value) {
        model := reported;
      }
    }

    method FailWith(reason: Reason)
      modifies this
      ensures View() == Fail(GatewayReader(cfg), old(View()), reason) && delivered == old(delivered)
      ensures finished
    {
      if finished {
        return;
      }
      Enqueue(ProtocolFailure(cfg, Identity(responseId, model, lastSequence), reason));
      finished := true;
      buffer := "";
    }

    /** One complete frame, already cut off the buffer. */
    method Take(frame: Bytes)
      requires !finished
      modifies this
      ensures View() == Accept(GatewayReader(cfg), old(View()), frame) && delivered == old(delivered)
    {
      var disposition := Examine(cfg.codec, cfg.events, frame);
      match disposition {
        case Reject(reason) => FailWith(reason);
        case Drop(event) => ObserveEvent(event);
        case Keep(event) =>
          ObserveEvent(event);
          TakeKept(event, frame);
      }
    }

    method TakeKept(event: Inspected, frame: Bytes)
      requires !finished
      modifies this
      ensures delivered == old(delivered)
      ensures var seen := old(View()).seen;
              match JudgeKept(cfg, seen, event, frame)
              case GoOn(_, _) => View() == old(View()).(out := old(View()).out + [frame])
              case Stop(_, last) => View() == State("", old(View()).out + [last], true, seen)
    {
      if cfg.events.failing(event.kind) {
        var failure := FailureOf(cfg, event);
        Enqueue(FailureFrame(cfg, Identity(responseId, model, lastSequence), lastSequence,
                             failure.code, failure.message, failure.parameter));
        finished, buffer := true, "";
        return;
      }
      Enqueue(frame);
      if cfg.events.terminal(event.kind) {
        finished, buffer := true, "";
      }
    }

    method DrainCompleteFrames()
      modifies this
      ensures View() == Drain(GatewayReader(cfg), old(View())) && delivered == old(delivered)
      ensures finished || FrameLen(buffer).None?
    {
      ghost var reader := GatewayReader(cfg);
      while !finished
        invariant Drain(reader, View()) == Drain(reader, old(View())) && delivered == old(delivered)
        decreases !finished, |buffer|
      {
        var found := CompleteFrameLen(buffer);
        if found.None? {
          break;
        }
        if found.value > cfg.maxEventBytes {
          FailWith(Oversized);
          break;
        }
        var frame := buffer[..found.value];
        buffer := buffer[found.value..];
        Take(frame);
      }
    }

    method Receive(chunk: Bytes)
      requires !finished
      modifies this
      ensures View() == Feed(GatewayReader(cfg), old(View()), chunk) && delivered == old(delivered)
      ensures finished || FrameLen(buffer).None?
    {
      buffer := buffer + chunk;
      DrainCompleteFrames();
      if !finished && |buffer| > cfg.maxEventBytes {
        FailWith(Oversized);
      }
    }

    method Conclude(end: End)
      requires !finished
      modifies this
      ensures View() == Finish(GatewayReader(cfg), old(View()), end) && delivered == old(delivered) && finished
    {
      FailWith(EndReason(buffer, end));
    }

    method PopFront() returns (frame: Bytes)
      requires pending != []
      modifies this`pending, this`delivered
      ensures frame == old(pending)[0] && delivered == old(delivered) + [frame]
      ensures pending == old(pending)[1..] && View() == old(View())
    {
      frame := pending[0];
      delivered := delivered + [frame];
      pending := pending[1..];
    }

    /** The unfold loop: hands out queued frames, then reads more of the body,
        until the stream is finished. */
    method Serve(chunks: seq<Bytes>, end: End) returns (out: seq<Bytes>)
      requires View() == INITIAL && pending == []
      modifies this
      ensures out == Run(GatewayReader(cfg), chunks, end)
    {
      ghost var reader := GatewayReader(cfg);
      var next := 0;
      out := [];
      while true
        invariant next <= |chunks| && out == delivered
        invariant finished || FrameLen(buffer).None?
        invariant Finish(reader, FeedAll(reader, View(), chunks[next..]), end)
                  == Finish(reader, FeedAll(reader, INITIAL, chunks), end)
        decreases |chunks| - next, !finished, |pending|
      {
        if pending != [] {
          var frame := PopFront();
          out := out + [frame];
        } else if finished {
          FinishedIgnoresInput(reader, View(), chunks[next..]);
          return;
        } else if next < |chunks| {
          // Nothing complete is buffered here, so draining before the read,
          // as the source does once more, would change nothing.
          assert chunks[next..][0] == chunks[next] && chunks[next..][1..] == chunks[next + 1..];
          Receive(chunks[next]);
          next := next + 1;
        } else {
          ghost var before := View();
          Conclude(end);
          assert Finish(reader, View(), end) == Finish(reader, before, end);
        }
      }
    }
  }
}
