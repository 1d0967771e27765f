/** What the failure that closes a stream tells a client: which response, and
    why, place by place of the JSON it came from. */
module FailureMeaning {
  import opened Prelude
  import opened Json
  import opened Framing
  import opened Inspect
  import opened Reassembly
  import opened Validator
  import opened ValidatorProofs

  // ----- which frames reach the client -----

  /** A frame within the limit that is understood and does not end the stream. */
  predicate Passable(cfg: Config, frame: Bytes) {
    && |frame| <= cfg.maxEventBytes && !InspectFrame(cfg.codec, cfg.events, frame).Reject? && !EndsStream(cfg, frame)
  }

  /** The frames that hold an event of the protocol, in order. */
  function EventFrames(cfg: Config, frames: seq<Bytes>): seq<Bytes> {
    if frames == [] then []
    else (if InspectFrame(cfg.codec, cfg.events, frames[0]).Keep? then [frames[0]] else [])
         + EventFrames(cfg, frames[1..])
  }

  lemma PassableJudged(cfg: Config, seen: Identity, frame: Bytes)
    requires |frame| <= cfg.maxEventBytes
    ensures Judge(cfg, seen, frame).GoOn? <==> Passable(cfg, frame)
    ensures Passable(cfg, frame) ==>
              Judge(cfg, seen, frame).keep == InspectFrame(cfg.codec, cfg.events, frame).Keep?
    ensures EndsStream(cfg, frame) && !IsFailure(cfg, frame) ==>
              Judge(cfg, seen, frame).Stop? && Judge(cfg, seen, frame).last == frame
  {
  }

  lemma {:induction false} PassedArePassable(cfg: Config, seen: Identity, frames: seq<Bytes>)
    ensures var k := Passed(GatewayReader(cfg), seen, frames);
            (forall i :: 0 <= i < k ==> Passable(cfg, frames[i])) && (k < |frames| ==> !Passable(cfg, frames[k]))
    decreases |frames|
  {
    if frames != [] && |frames[0]| <= cfg.maxEventBytes {
      PassableJudged(cfg, seen, frames[0]);
      if Judge(cfg, seen, frames[0]).GoOn? {
        PassedArePassable(cfg, Judge(cfg, seen, frames[0]).seen, frames[1..]);
      }
    }
  }

  lemma {:induction false} KeptAreEvents(cfg: Config, seen: Identity, frames: seq<Bytes>)
    requires forall i :: 0 <= i < |frames| ==> Passable(cfg, frames[i])
    ensures Kept(GatewayReader(cfg), seen, frames) == EventFrames(cfg, frames)
    decreases |frames|
  {
    if frames != [] {
      PassableJudged(cfg, seen, frames[0]);
      assert forall i :: 0 <= i < |frames[1..]| ==> frames[1..][i] == frames[i + 1];
      KeptAreEvents(cfg, Judge(cfg, seen, frames[0]).seen, frames[1..]);
    }
  }

  /** A frame that ends the response and passes as it is. */
  predicate PassesLast(cfg: Config, frame: Bytes) {
    |frame| <= cfg.maxEventBytes && EndsStream(cfg, frame) && !IsFailure(cfg, frame)
  }

  /** In every run the client gets, verbatim and in order, the protocol events
      among the frames before the first that cannot pass, and one frame more;
      that one verbatim when it ends the response and is no failure. */
  lemma ServedExactly(cfg: Config, chunks: seq<Bytes>, end: End) returns (k: nat)
    ensures var frames, out := Frames(Concat(chunks)), Run(GatewayReader(cfg), chunks, end);
            && k <= |frames| && (forall i :: 0 <= i < k ==> Passable(cfg, frames[i]))
            && (k < |frames| ==> !Passable(cfg, frames[k]))
            && out != [] && out[..|out| - 1] == EventFrames(cfg, frames[..k])
            && (k < |frames| && PassesLast(cfg, frames[k]) ==> out[|out| - 1] == frames[k])
  {
    var reader, frames := GatewayReader(cfg), Frames(Concat(chunks));
    k := Passed(reader, INITIAL.seen, frames);
    RunMatchesDeclaration(reader, chunks, end);
    PassedArePassable(cfg, INITIAL.seen, frames);
    KeptAreEvents(cfg, INITIAL.seen, frames[..k]);
    if k < |frames| && |frames[k]| <= cfg.maxEventBytes {
      PassableJudged(cfg, Known(reader, INITIAL.seen, frames[..k]), frames[k]);
    }
  }

  // ----- what the frames have told of the response -----

  /** The payload of a frame the validator understands. */
  function PayloadFor(cfg: Config, frame: Bytes): Option<Value> {
    match InspectFrame(cfg.codec, cfg.events, frame)
    case Reject(_) => None
    case Drop(event) => Some(event.value)
    case Keep(event) => Some(event.value)
  }

  /** A text that may name something. */
  predicate Names(c: Codec, text: Option<Value>) {
    AsStr(text).Some? && AsStr(text).value != "" && |AsStr(text).value| <= 512 && !c.blank(AsStr(text).value)
  }

  function NameAt(c: Codec, text: Option<Value>): seq<string> { if Names(c, text) then [AsStr(text).value] else [] }

  /** The response ids a payload gives, in the order they count. */
  function IdsIn(c: Codec, v: Option<Value>): seq<string> {
    NameAt(c, At(At(v, "response"), "id")) + NameAt(c, At(v, "response_id"))
  }

  /** The model names a payload gives: the response's, then a header's. */
  function ModelsIn(cfg: Config, v: Option<Value>): seq<string> {
    var nested, outer := At(At(v, "response"), "headers"), At(v, "headers");
    var header :=
      if nested.Some? && cfg.headerModel(nested.value).Some? then cfg.headerModel(nested.value)
      else if outer.Some? then cfg.headerModel(outer.value) else None;
    NameAt(cfg.codec, At(At(v, "response"), "model"))
    + if header.Some? then NameAt(cfg.codec, Some(Str(header.value))) else []
  }

  function AllIds(cfg: Config, frames: seq<Bytes>): seq<string> {
    if frames == [] then [] else IdsIn(cfg.codec, PayloadFor(cfg, frames[0])) + AllIds(cfg, frames[1..])
  }

  function AllModels(cfg: Config, frames: seq<Bytes>): seq<string> {
    if frames == [] then [] else ModelsIn(cfg, PayloadFor(cfg, frames[0])) + AllModels(cfg, frames[1..])
  }

  function LastElse(texts: seq<string>, otherwise: Option<string>): Option<string> {
    if texts == [] then otherwise else Some(texts[|texts| - 1])
  }

  lemma LastOfBoth(a: seq<string>, b: seq<string>, otherwise: Option<string>)
    ensures LastElse(a + b, otherwise) == LastElse(b, LastElse(a, otherwise))
  {
    if b == [] {
      assert a + b == a;
    }
  }

  lemma LearnsName(c: Codec, known: Option<string>, text: Option<Value>)
    ensures Learn(c, known, AsStr(text)) == LastElse(NameAt(c, text), known)
  {
  }

  lemma ObservesNames(cfg: Config, seen: Identity, event: Inspected)
    ensures Observe(cfg, seen, event).responseId == LastElse(IdsIn(cfg.codec, Some(event.value)), seen.responseId)
    ensures Observe(cfg, seen, event).model == LastElse(ModelsIn(cfg, Some(event.value)), seen.model)
  {
    var c, v := cfg.codec, Some(event.value);
    var id, responseId, model := At(At(v, "response"), "id"), At(v, "response_id"), At(At(v, "response"), "model");
    LearnsName(c, seen.responseId, id);
    LearnsName(c, LastElse(NameAt(c, id), seen.responseId), responseId);
    LastOfBoth(NameAt(c, id), NameAt(c, responseId), seen.responseId);
    LearnsName(c, seen.model, model);
    var header := ReportedModel(cfg, event.value);
    if header.Some? {
      LearnsName(c, LastElse(NameAt(c, model), seen.model), Some(Str(header.value)));
      LastOfBoth(NameAt(c, model), NameAt(c, Some(Str(header.value))), seen.model);
    } else {
      assert NameAt(c, model) + [] == NameAt(c, model);
    }
  }

  lemma JudgedNames(cfg: Config, seen: Identity, frame: Bytes)
    ensures var next := Judge(cfg, seen, frame).seen;
            && next.responseId == LastElse(IdsIn(cfg.codec, PayloadFor(cfg, frame)), seen.responseId)
            && next.model == LastElse(ModelsIn(cfg, PayloadFor(cfg, frame)), seen.model)
  {
    match InspectFrame(cfg.codec, cfg.events, frame)
    case Reject(_) =>
    case Drop(event) => ObservesNames(cfg, seen, event);
    case Keep(event) => ObservesNames(cfg, seen, event);
  }

  /** What is known after some frames is the last name each gave. */
  lemma {:induction false} KnownNames(cfg: Config, seen: Identity, frames: seq<Bytes>)
    ensures var known := Known(GatewayReader(cfg), seen, frames);
            && known.responseId == LastElse(AllIds(cfg, frames), seen.responseId)
            && known.model == LastElse(AllModels(cfg, frames), seen.model)
    decreases |frames|
  {
    if frames != [] {
      var next := Judge(cfg, seen, frames[0]).seen;
      JudgedNames(cfg, seen, frames[0]);
      KnownNames(cfg, next, frames[1..]);
      LastOfBoth(IdsIn(cfg.codec, PayloadFor(cfg, frames[0])), AllIds(cfg, frames[1..]), seen.responseId);
      LastOfBoth(ModelsIn(cfg, PayloadFor(cfg, frames[0])), AllModels(cfg, frames[1..]), seen.model);
    }
  }

  // ----- what a failure says -----

  /** The failure of a response under a name and model, with an error. */
  predicate SaysFailure(cfg: Config, event: Value, id: string, model: string, code: string, message: string,
                        parameter: Option<string>) {
    var response := Get(event, "response");
    && At(response, "id") == Some(Str(id)) && At(response, "model") == Some(Str(model))
    && At(response, "object") == Some(Str("response")) && At(response, "status") == Some(Str("failed"))
    && At(response, "created_at") == Some(Num(cfg.now)) && At(response, "output") == Some(Arr([]))
    && At(At(response, "error"), "code") == Some(Str(code))
       && At(At(response, "error"), "message") == Some(Str(message))
    && At(At(response, "error"), "param") == Some(if parameter.Some? then Str(parameter.value) else Null)
  }

  lemma ResponseSays(cfg: Config, seen: Identity, code: string, message: string, parameter: Option<string>)
    ensures var response := FailedResponse(cfg, seen, code, message, parameter);
            && Get(response, "id") == Some(Str(OrDefault(cfg.codec, seen.responseId, DEFAULT_ID)))
            && Get(response, "model") == Some(Str(OrDefault(cfg.codec, seen.model, "muse-codex")))
            && Get(response, "object") == Some(Str("response")) && Get(response, "status") == Some(Str("failed"))
            && Get(response, "created_at") == Some(Num(cfg.now)) && Get(response, "output") == Some(Arr([]))
            && Get(response, "error")
               == Some(Obj(map["code" := Str(code), "message" := Str(message), "param" := Nullable(parameter)]))
  {
  }

  lemma ErrorSays(code: string, message: string, parameter: Option<string>)
    ensures var error := Obj(map["code" := Str(code), "message" := Str(message), "param" := Nullable(parameter)]);
            && Get(error, "code") == Some(Str(code)) && Get(error, "message") == Some(Str(message))
            && Get(error, "param") == Some(if parameter.Some? then Str(parameter.value) else Null)
  {
  }

  predicate Named(c: Codec, name: Option<string>) {
    name.Some? ==> name.value != "" && |name.value| <= 512 && !c.blank(name.value)
  }

  function Else(name: Option<string>, otherwise: string): string { if name.Some? then name.value else otherwise }

  lemma EventSays(cfg: Config, seen: Identity, sequence: nat, code: string, message: string, parameter: Option<string>)
    requires Named(cfg.codec, seen.responseId) && Named(cfg.codec, seen.model) && sequence <= U64_MAX
    ensures SaysFailure(cfg, FailureEvent(cfg, seen, sequence, code, message, parameter),
                        Else(seen.responseId, "resp_muse_codex_protocol_error"), Else(seen.model, "muse-codex"),
                        code, message, parameter)
  {
    FailureFields(cfg, seen, sequence, code, message, parameter);
    ResponseSays(cfg, seen, code, message, parameter);
    ErrorSays(code, message, parameter);
  }

  lemma LastIsNamed(cfg: Config, frames: seq<Bytes>)
    ensures Named(cfg.codec, LastElse(AllIds(cfg, frames), None))
            && Named(cfg.codec, LastElse(AllModels(cfg, frames), None))
  {
    if frames != [] {
      LastIsNamed(cfg, frames[1..]);
      LastOfBoth(IdsIn(cfg.codec, PayloadFor(cfg, frames[0])), AllIds(cfg, frames[1..]), None);
      LastOfBoth(ModelsIn(cfg, PayloadFor(cfg, frames[0])), AllModels(cfg, frames[1..]), None);
    }
  }

  /** Why the gateway stops a stream of its own accord. */
  ghost predicate StopsFor(cfg: Config, frames: seq<Bytes>, k: nat, tail: Bytes, end: End, reason: Reason)
    requires k <= |frames|
  {
    if k < |frames| && |frames[k]| <= cfg.maxEventBytes then FirstBroken(cfg.codec, cfg.events, frames[k], reason)
    else if k < |frames| || |tail| > cfg.maxEventBytes then reason == Oversized
    else if end.Interrupted? then reason == StreamInterrupted
    else if end.IdleTimeout? then reason == StreamIdle
    else if forall i :: 0 <= i < |tail| ==> tail[i] in {' ', '\t', '\n', '\r', 12 as char} then reason == EndedEarly
    else reason == EndedInside
  }

  /** The frame reads as a failure with this number, and says this. */
  ghost predicate Tells(cfg: Config, frame: Bytes, id: string, model: string, code: string, message: string,
                        parameter: Option<string>) {
    match InspectFrame(cfg.codec, cfg.events, frame)
    case Keep(event) => event.kind == "response.failed"
    && SaysFailure(cfg, event.value, id, model, code, message, parameter)
    case _ => false
  }

  /** A frame that tells of a failed request, for a reason, under the last id and
      model of these frames. */
  ghost predicate TellsOwn(cfg: Config, frame: Bytes, frames: seq<Bytes>, reason: Reason) {
    Tells(cfg, frame, Else(LastElse(AllIds(cfg, frames), None), "resp_muse_codex_protocol_error"),
          Else(LastElse(AllModels(cfg, frames), None), "muse-codex"), "invalid_request", cfg.diagnosis(reason), None)
  }

  /** In every run the gateway stops of its own accord, the last frame tells the
      client of a failed request, for the reason that holds, under the last id
      and model the frames that passed have given. */
  lemma OwnFailureTells(cfg: Config, chunks: seq<Bytes>, end: End) returns (reason: Reason)
    requires Lawful(cfg.codec) && cfg.events == RESPONSES
    ensures var frames, tail := Frames(Concat(chunks)), Tail(Concat(chunks));
            var k := Passed(GatewayReader(cfg), INITIAL.seen, frames);
            var out := Run(GatewayReader(cfg), chunks, end);
            StopsItself(cfg, frames, k) ==>
              StopsFor(cfg, frames, k, tail, end, reason) && out != []
              && TellsOwn(cfg, out[|out| - 1], frames[..k], reason)
  {
    ResponsesReadsOwnFailures();
    RunMatchesDeclaration(GatewayReader(cfg), chunks, end);
    reason := OwnClosingTells(cfg, Frames(Concat(chunks)), Tail(Concat(chunks)), end);
  }

  lemma OwnClosingTells(cfg: Config, frames: seq<Bytes>, tail: Bytes, end: End) returns (reason: Reason)
    requires Lawful(cfg.codec) && ReadsOwnFailures(cfg.events)
    ensures var k := Passed(GatewayReader(cfg), INITIAL.seen, frames);
            var known := Known(GatewayReader(cfg), INITIAL.seen, frames[..k]);
            StopsItself(cfg, frames, k) ==>
              && StopsFor(cfg, frames, k, tail, end, reason)
              && TellsOwn(cfg, Closing(GatewayReader(cfg), known, frames[k..], tail, end), frames[..k], reason)
  {
    var reader := GatewayReader(cfg);
    var k := Passed(reader, INITIAL.seen, frames);
    var known := Known(reader, INITIAL.seen, frames[..k]);
    KnownBoundsSequences(cfg, INITIAL.seen, frames[..k]);
    KnownNames(cfg, INITIAL.seen, frames[..k]);
    LastIsNamed(cfg, frames[..k]);
    reason := if k == |frames| then (if |tail| > cfg.maxEventBytes then Oversized else EndReason(tail, end))
              else if |frames[k]| > cfg.maxEventBytes then Oversized
              else if InspectFrame(cfg.codec, cfg.events, frames[k]).Reject?
              then InspectFrame(cfg.codec, cfg.events, frames[k]).reason else Oversized;
    if StopsItself(cfg, frames, k) {
      StopReason(cfg, frames, k, tail, end, reason);
      ClosingOfItself(cfg, known, frames, k, tail, end, reason);
      FailureTells(cfg, known, SaturatingNext(known.lastSequence), "invalid_request", cfg.diagnosis(reason), None);
    }
  }

  lemma StopReason(cfg: Config, frames: seq<Bytes>, k: nat, tail: Bytes, end: End, reason: Reason)
    requires k <= |frames| && StopsItself(cfg, frames, k)
    requires reason == if k == |frames| then (if |tail| > cfg.maxEventBytes then Oversized else EndReason(tail, end))
                       else if |frames[k]| > cfg.maxEventBytes then Oversized
                       else InspectFrame(cfg.codec, cfg.events, frames[k]).reason
    ensures StopsFor(cfg, frames, k, tail, end, reason)
  {
    if k < |frames| && |frames[k]| <= cfg.maxEventBytes {
      RejectedExactly(cfg.codec, cfg.events, frames[k], reason);
    }
  }

  // ----- a provider's own failure -----

  /** Where a provider's failure keeps its error. */
  function ErrorIn(v: Value): Value {
    if At(Get(v, "response"), "error").Some? then At(Get(v, "response"), "error").value
    else if Get(v, "error").Some? then Get(v, "error").value
    else v
  }

  predicate SafeName(text: string) {
    && text != "" && |text| <= 128
    && forall i :: 0 <= i < |text| ==>
         'a' <= text[i] <= 'z' || 'A' <= text[i] <= 'Z' || '0' <= text[i] <= '9' || text[i] == '_' || text[i] == '-'
         || text[i] == '.' || text[i] == '[' || text[i] == ']'
  }

  /** The code a client is told of. */
  function CodeFor(code: Option<string>): string {
    if code == Some("usage_limit_reached") then "rate_limit_exceeded"
    else if code == Some("context_length_exceeded") || code == Some("rate_limit_exceeded")
         || code == Some("invalid_api_key") || code == Some("model_not_found") || code == Some("insufficient_quota")
    then code.value
    else "invalid_request"
  }

  function ParameterFor(parameter: Option<string>): Option<string> {
    if parameter.Some? && SafeName(parameter.value) then parameter else None
  }

  lemma SanitizedByPlace(cfg: Config, v: Value)
    ensures var code := CodeFor(AsStr(Get(ErrorIn(v), "code")));
            Sanitize(cfg, v)
            == StreamFailure(code, cfg.failureText(code), ParameterFor(AsStr(Get(ErrorIn(v), "param"))))
  {
    CodeRead(AsStr(Get(ErrorIn(v), "code")));
  }

  lemma CodeRead(code: Option<string>)
    ensures FailureCode(code) == CodeFor(code)
  {
  }

  /** A frame in the place of a provider's failure `v`: a known code, its
      wording and at most a safe parameter name, or that the response was
      cancelled; under the last id and model, those of `v` included. */
  ghost predicate TellsFor(cfg: Config, frame: Bytes, v: Value, id: Option<string>, model: Option<string>) {
    var cancelled := AsStr(Get(v, "type")) == Some("response.cancelled");
    var code := if cancelled then "invalid_request" else CodeFor(AsStr(Get(ErrorIn(v), "code")));
    Tells(cfg, frame, Else(LastElse(IdsIn(cfg.codec, Some(v)), id), "resp_muse_codex_protocol_error"),
          Else(LastElse(ModelsIn(cfg, Some(v)), model), "muse-codex"),
          code, if cancelled then cfg.cancelledText else cfg.failureText(code),
          if cancelled then None else ParameterFor(AsStr(Get(ErrorIn(v), "param"))))
  }

  /** In every run that ends in a provider's own failure, the client is told of
      it in its known form, under the last id and model given up to it. */
  lemma ReplacedFailureTells(cfg: Config, chunks: seq<Bytes>, end: End)
    requires Lawful(cfg.codec) && cfg.events == RESPONSES
    ensures var frames := Frames(Concat(chunks));
            var k := Passed(GatewayReader(cfg), INITIAL.seen, frames);
            var out := Run(GatewayReader(cfg), chunks, end);
            !StopsItself(cfg, frames, k) && IsFailure(cfg, frames[k]) ==>
              && out != [] && PayloadFor(cfg, frames[k]).Some?
              && TellsFor(cfg, out[|out| - 1], PayloadFor(cfg, frames[k]).value,
                          LastElse(AllIds(cfg, frames[..k]), None), LastElse(AllModels(cfg, frames[..k]), None))
  {
    ResponsesReadsOwnFailures();
    RunMatchesDeclaration(GatewayReader(cfg), chunks, end);
    ReplacedClosingTells(cfg, Frames(Concat(chunks)), Tail(Concat(chunks)), end);
  }

  lemma ReplacedClosingTells(cfg: Config, frames: seq<Bytes>, tail: Bytes, end: End)
    requires Lawful(cfg.codec) && ReadsOwnFailures(cfg.events)
    ensures var k := Passed(GatewayReader(cfg), INITIAL.seen, frames);
            var known := Known(GatewayReader(cfg), INITIAL.seen, frames[..k]);
            !StopsItself(cfg, frames, k) && IsFailure(cfg, frames[k]) ==>
              && PayloadFor(cfg, frames[k]).Some?
              && TellsFor(cfg, Closing(GatewayReader(cfg), known, frames[k..], tail, end),
                          PayloadFor(cfg, frames[k]).value,
                          LastElse(AllIds(cfg, frames[..k]), None), LastElse(AllModels(cfg, frames[..k]), None))
  {
    var reader := GatewayReader(cfg);
    var k := Passed(reader, INITIAL.seen, frames);
    var known := Known(reader, INITIAL.seen, frames[..k]);
    KnownBoundsSequences(cfg, INITIAL.seen, frames[..k]);
    KnownNames(cfg, INITIAL.seen, frames[..k]);
    LastIsNamed(cfg, frames[..k]);
    if !StopsItself(cfg, frames, k) && IsFailure(cfg, frames[k]) {
      ReplacedTells(cfg, known, frames[k]);
    }
  }

  lemma KeptKind(cfg: Config, frame: Bytes, event: Inspected)
    requires InspectFrame(cfg.codec, cfg.events, frame) == Keep(event)
    ensures AsStr(Get(event.value, "type")) == Some(event.kind)
  {
    KeptExactly(cfg.codec, cfg.events, frame, event);
  }

  lemma FailureByPlace(cfg: Config, event: Inspected)
    requires AsStr(Get(event.value, "type")) == Some(event.kind)
    ensures var cancelled := AsStr(Get(event.value, "type")) == Some("response.cancelled");
            var code := CodeFor(AsStr(Get(ErrorIn(event.value), "code")));
            FailureOf(cfg, event)
            == if cancelled then StreamFailure("invalid_request", cfg.cancelledText, None)
               else StreamFailure(code, cfg.failureText(code), ParameterFor(AsStr(Get(ErrorIn(event.value), "param"))))
  {
    SanitizedByPlace(cfg, event.value);
  }

  lemma ReplacedTells(cfg: Config, known: Identity, frame: Bytes)
    requires Lawful(cfg.codec) && ReadsOwnFailures(cfg.events) && known.lastSequence <= U64_MAX && IsFailure(cfg, frame)
    requires Named(cfg.codec, known.responseId) && Named(cfg.codec, known.model)
    ensures Judge(cfg, known, frame).Stop? && PayloadFor(cfg, frame).Some?
    ensures TellsFor(cfg, Judge(cfg, known, frame).last, PayloadFor(cfg, frame).value, known.responseId, known.model)
  {
    var event := InspectFrame(cfg.codec, cfg.events, frame).event;
    var seen := Observe(cfg, known, event);
    var failure := FailureOf(cfg, event);
    JudgementIsMonotone(cfg, known, frame);
    ObservesNames(cfg, known, event);
    KeptKind(cfg, frame, event);
    FailureByPlace(cfg, event);
    var last := FailureFrame(cfg, seen, seen.lastSequence, failure.code, failure.message, failure.parameter);
    assert Judge(cfg, known, frame) == Stop(seen, last);
    FailureTells(cfg, seen, seen.lastSequence, failure.code, failure.message, failure.parameter);
  }

  lemma FailureTells(cfg: Config, seen: Identity, sequence: nat, code: string, message: string,
                     parameter: Option<string>)
    requires Lawful(cfg.codec) && ReadsOwnFailures(cfg.events) && sequence <= U64_MAX
    requires Named(cfg.codec, seen.responseId) && Named(cfg.codec, seen.model)
    ensures Tells(cfg, FailureFrame(cfg, seen, sequence, code, message, parameter),
                  Else(seen.responseId, "resp_muse_codex_protocol_error"), Else(seen.model, "muse-codex"),
                  code, message, parameter)
  {
    FailureFrameReads(cfg, seen, sequence, code, message, parameter);
    EventSays(cfg, seen, sequence, code, message, parameter);
  }
}
