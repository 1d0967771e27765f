/** What a client of the gateway's validator can rely on. */
module ValidatorProofs {
  import opened Prelude
  import opened Json
  import opened Framing
  import opened Inspect
  import opened Reassembly
  import opened Validator
  import opened SseText

  /** The sequence number of a frame, dropped metadata included. */
  function SequenceOf(cfg: Config, frame: Bytes): Option<nat> {
    match InspectFrame(cfg.codec, cfg.events, frame)
    case Reject(_) => None
    case Drop(event) => event.sequence
    case Keep(event) => event.sequence
  }

  /** A frame that ends a response when a client reads it. */
  predicate EndsStream(cfg: Config, frame: Bytes) {
    match InspectFrame(cfg.codec, cfg.events, frame)
    case Reject(_) => false
    case Drop(_) => false
    case Keep(event) => cfg.events.terminal(event.kind) || cfg.events.failing(event.kind)
  }

  /** What the event table says of the failures the gateway writes itself. */
  ghost predicate ReadsOwnFailures(ev: Events) {
    var kind := "response.failed";
    && ev.known(kind) && !ev.metadata(kind) && ev.terminal(kind)
    && !ev.delta(kind) && !ev.item(kind)
  }

  lemma ResponsesReadsOwnFailures()
    ensures ReadsOwnFailures(RESPONSES)
  {
  }

  lemma SequencesFit(cfg: Config, frame: Bytes)
    ensures SequenceOf(cfg, frame).Some? ==> SequenceOf(cfg, frame).value <= U64_MAX
  {
  }

  lemma JudgementIsMonotone(cfg: Config, seen: Identity, frame: Bytes)
    requires seen.lastSequence <= U64_MAX
    ensures var next := Judge(cfg, seen, frame).seen;
            && seen.lastSequence <= next.lastSequence <= U64_MAX
            && (SequenceOf(cfg, frame).Some? ==> SequenceOf(cfg, frame).value <= next.lastSequence)
  {
    SequencesFit(cfg, frame);
  }

  lemma {:induction false} KnownBoundsSequences(cfg: Config, seen: Identity, frames: seq<Bytes>)
    requires seen.lastSequence <= U64_MAX
    ensures var known := Known(GatewayReader(cfg), seen, frames).lastSequence;
            && seen.lastSequence <= known <= U64_MAX
            && forall i :: 0 <= i < |frames| && SequenceOf(cfg, frames[i]).Some? ==>
                 SequenceOf(cfg, frames[i]).value <= known
    decreases |frames|
  {
    if frames != [] {
      var next := Judge(cfg, seen, frames[0]).seen;
      JudgementIsMonotone(cfg, seen, frames[0]);
      KnownBoundsSequences(cfg, next, frames[1..]);
      forall i | 0 <= i < |frames| && SequenceOf(cfg, frames[i]).Some?
        ensures SequenceOf(cfg, frames[i]).value <= Known(GatewayReader(cfg), seen, frames).lastSequence
      {
        if i > 0 {
          assert frames[i] == frames[1..][i - 1];
        }
      }
    }
  }

  lemma FailureFields(cfg: Config, seen: Identity, sequence: nat, code: string, message: string,
                      parameter: Option<string>)
    requires sequence <= U64_MAX
    ensures var event := FailureEvent(cfg, seen, sequence, code, message, parameter);
            && AsStr(Get(event, "type")) == Some("response.failed")
            && AsU64(Get(event, "sequence_number")) == Some(sequence)
            && Get(event, "response") == Some(FailedResponse(cfg, seen, code, message, parameter))
  {
  }

  lemma FailedResponseId(cfg: Config, seen: Identity, code: string, message: string, parameter: Option<string>)
    ensures FailedResponse(cfg, seen, code, message, parameter).Obj?
    ensures Get(FailedResponse(cfg, seen, code, message, parameter), "id")
         == Some(Str(OrDefault(cfg.codec, seen.responseId, DEFAULT_ID)))
  {
  }

  lemma DefaultIdIsSafe(c: Codec)
    requires Lawful(c)
    ensures SafeIdentifier(c, DEFAULT_ID)
  {
    assert Graphic(DEFAULT_ID);
  }

  lemma FailureId(cfg: Config, seen: Identity, sequence: nat, code: string, message: string, parameter: Option<string>)
    requires Lawful(cfg.codec) && sequence <= U64_MAX
    ensures var id := At(Get(FailureEvent(cfg, seen, sequence, code, message, parameter), "response"), "id");
            && SafeText(cfg.codec, id)
            && (seen.responseId.Some? && SafeIdentifier(cfg.codec, seen.responseId.value) ==>
                  AsStr(id) == seen.responseId)
  {
    FailureFields(cfg, seen, sequence, code, message, parameter);
    FailedResponseId(cfg, seen, code, message, parameter);
    DefaultIdIsSafe(cfg.codec);
  }

  lemma WellShapedEventIsKept(c: Codec, ev: Events, kind: string, sequence: nat, event: Value)
    requires ev.known(kind) && !ev.metadata(kind) && AsStr(Get(event, "type")) == Some(kind)
    requires AsU64(Get(event, "sequence_number")) == Some(sequence)
    requires ShapeFault(c, ev, kind, event).None?
    ensures InspectValue(c, ev, Some(kind), event) == Keep(Inspected(kind, Some(sequence), event))
  {
  }

  lemma FailureIsWellShaped(c: Codec, ev: Events, event: Value)
    requires ReadsOwnFailures(ev)
    requires Get(event, "response").Some? && Get(event, "response").value.Obj?
             && SafeText(c, At(Get(event, "response"), "id"))
    ensures ShapeFault(c, ev, "response.failed", event).None?
  {
    assert "response.failed" != "response.cancelled" && "response.failed" != "error";
  }

  lemma FailureFrameReads(cfg: Config, seen: Identity, sequence: nat, code: string, message: string,
                          parameter: Option<string>)
    requires Lawful(cfg.codec) && ReadsOwnFailures(cfg.events) && sequence <= U64_MAX
    ensures InspectFrame(cfg.codec, cfg.events, FailureFrame(cfg, seen, sequence, code, message, parameter))
         == Keep(Inspected("response.failed", Some(sequence),
                           FailureEvent(cfg, seen, sequence, code, message, parameter)))
  {
    var event := FailureEvent(cfg, seen, sequence, code, message, parameter);
    FailureFields(cfg, seen, sequence, code, message, parameter);
    FailureId(cfg, seen, sequence, code, message, parameter);
    FailedResponseId(cfg, seen, code, message, parameter);
    FailureIsWellShaped(cfg.codec, cfg.events, event);
    WellShapedEventIsKept(cfg.codec, cfg.events, "response.failed", sequence, event);
    assert Graphic("response.failed");
    InspectWritten(cfg.codec, cfg.events, "response.failed", event);
  }

  lemma ProtocolFailureEndsStream(cfg: Config, seen: Identity, reason: Reason)
    requires Lawful(cfg.codec) && ReadsOwnFailures(cfg.events) && seen.lastSequence <= U64_MAX
    ensures EndsStream(cfg, ProtocolFailure(cfg, seen, reason))
  {
    FailureFrameReads(cfg, seen, SaturatingNext(seen.lastSequence), "invalid_request", cfg.diagnosis(reason), None);
  }

  lemma StopEndsStream(cfg: Config, seen: Identity, frame: Bytes)
    requires Lawful(cfg.codec) && ReadsOwnFailures(cfg.events) && seen.lastSequence <= U64_MAX
    requires Judge(cfg, seen, frame).Stop?
    ensures EndsStream(cfg, Judge(cfg, seen, frame).last)
  {
    JudgementIsMonotone(cfg, seen, frame);
    match InspectFrame(cfg.codec, cfg.events, frame)
    case Reject(reason) => ProtocolFailureEndsStream(cfg, seen, reason);
    case Keep(event) =>
      var known := Observe(cfg, seen, event);
      if cfg.events.failing(event.kind) {
        var failure := FailureOf(cfg, event);
        FailureFrameReads(cfg, known, known.lastSequence, failure.code, failure.message, failure.parameter);
      }
  }

  lemma GoingOnIsNotEnding(cfg: Config, seen: Identity, frame: Bytes)
    requires Judge(cfg, seen, frame).GoOn?
    ensures !EndsStream(cfg, frame)
  {
  }

  /** A kept frame: one of the body's, and not an ending. */
  predicate Ordinary(cfg: Config, frames: seq<Bytes>, frame: Bytes) {
    frame in frames && !EndsStream(cfg, frame)
  }

  lemma {:induction false} KeptAreOrdinary(cfg: Config, seen: Identity, frames: seq<Bytes>)
    ensures forall frame :: frame in Kept(GatewayReader(cfg), seen, frames) ==> Ordinary(cfg, frames, frame)
    decreases |frames|
  {
    var reader := GatewayReader(cfg);
    if frames != [] && reader.judge(seen, frames[0]).GoOn? {
      var next := reader.judge(seen, frames[0]).seen;
      GoingOnIsNotEnding(cfg, seen, frames[0]);
      KeptAreOrdinary(cfg, next, frames[1..]);
      forall frame | frame in Kept(reader, seen, frames)
        ensures Ordinary(cfg, frames, frame)
      {
        assert frame == frames[0] || frame in Kept(reader, next, frames[1..]);
        assert frame != frames[0] ==> Ordinary(cfg, frames[1..], frame);
      }
    }
  }

  lemma {:induction false} PassedIsMaximal(reader: Reader, seen: Identity, frames: seq<Bytes>)
    ensures var k := Passed(reader, seen, frames);
            k < |frames| && |frames[k]| <= reader.maxEventBytes ==>
              reader.judge(Known(reader, seen, frames[..k]), frames[k]).Stop?
    decreases |frames|
  {
    var k := Passed(reader, seen, frames);
    if k > 0 {
      PassedIsMaximal(reader, reader.judge(seen, frames[0]).seen, frames[1..]);
      assert frames[..k][0] == frames[0] && frames[..k][1..] == frames[1..][..k - 1];
    } else {
      assert frames[..0] == [];
    }
  }

  lemma ClosingEndsStream(cfg: Config, seen: Identity, frames: seq<Bytes>, tail: Bytes, end: End)
    requires Lawful(cfg.codec) && ReadsOwnFailures(cfg.events) && seen.lastSequence <= U64_MAX
    ensures var reader := GatewayReader(cfg);
            var k := Passed(reader, seen, frames);
            EndsStream(cfg, Closing(reader, Known(reader, seen, frames[..k]), frames[k..], tail, end))
  {
    var reader := GatewayReader(cfg);
    var k := Passed(reader, seen, frames);
    var known := Known(reader, seen, frames[..k]);
    KnownBoundsSequences(cfg, seen, frames[..k]);
    PassedIsMaximal(reader, seen, frames);
    if k == |frames| {
      ProtocolFailureEndsStream(cfg, known, if |tail| > cfg.maxEventBytes then Oversized else EndReason(tail, end));
    } else if |frames[k]| > cfg.maxEventBytes {
      ProtocolFailureEndsStream(cfg, known, Oversized);
    } else {
      StopEndsStream(cfg, known, frames[k]);
    }
  }

  /** Every stream the gateway serves ends with a terminal frame and holds no
      other; the frames before it are complete frames of the body, verbatim. */
  lemma ExactlyOneTerminal(cfg: Config, chunks: seq<Bytes>, end: End)
    requires Lawful(cfg.codec) && cfg.events == RESPONSES
    ensures var out := Run(GatewayReader(cfg), chunks, end);
            && out != []
            && EndsStream(cfg, out[|out| - 1])
            && forall frame :: frame in out[..|out| - 1] ==> Ordinary(cfg, Frames(Concat(chunks)), frame)
  {
    var reader := GatewayReader(cfg);
    var frames, tail := Frames(Concat(chunks)), Tail(Concat(chunks));
    ResponsesReadsOwnFailures();
    RunMatchesDeclaration(reader, chunks, end);
    var k := Passed(reader, INITIAL.seen, frames);
    var kept := Kept(reader, INITIAL.seen, frames[..k]);
    KeptAreOrdinary(cfg, INITIAL.seen, frames[..k]);
    ClosingEndsStream(cfg, INITIAL.seen, frames, tail, end);
    var out := Run(reader, chunks, end);
    assert out[..|out| - 1] == kept;
    forall frame | frame in out[..|out| - 1]
      ensures Ordinary(cfg, frames, frame)
    {
      assert Ordinary(cfg, frames[..k], frame);
    }
  }

  /** A failure the validator itself writes reads back under the next number. */
  lemma ProtocolFailureReads(cfg: Config, seen: Identity, reason: Reason)
    requires Lawful(cfg.codec) && ReadsOwnFailures(cfg.events) && seen.lastSequence <= U64_MAX
    ensures ReadsAsFailure(cfg, ProtocolFailure(cfg, seen, reason), SaturatingNext(seen.lastSequence))
  {
    FailureFrameReads(cfg, seen, SaturatingNext(seen.lastSequence), "invalid_request", cfg.diagnosis(reason), None);
  }

  /** A client reads the frame as a `response.failed` with this number. */
  predicate ReadsAsFailure(cfg: Config, frame: Bytes, sequence: nat) {
    match InspectFrame(cfg.codec, cfg.events, frame)
    case Keep(event) => event.kind == "response.failed" && event.sequence == Some(sequence)
    case _ => false
  }

  predicate NumberedBelow(cfg: Config, frames: seq<Bytes>, sequence: nat) {
    forall i | 0 <= i < |frames| && SequenceOf(cfg, frames[i]).Some? ::
      SequenceOf(cfg, frames[i]).value < sequence || SequenceOf(cfg, frames[i]).value == sequence == U64_MAX
  }

  predicate NumberedUpTo(cfg: Config, frames: seq<Bytes>, sequence: nat) {
    forall i | 0 <= i < |frames| && SequenceOf(cfg, frames[i]).Some? :: SequenceOf(cfg, frames[i]).value <= sequence
  }

  /** Whether the gateway stops a stream of its own accord: the body ends, or
      the first frame that does not pass is oversized or rejected. */
  predicate StopsItself(cfg: Config, frames: seq<Bytes>, k: nat)
    requires k <= |frames|
  {
    k < |frames| && |frames[k]| <= cfg.maxEventBytes ==> InspectFrame(cfg.codec, cfg.events, frames[k]).Reject?
  }

  /** In every run the gateway stops of its own accord, the last frame a client
      reads is a failure numbered above every frame that passed, dropped
      metadata included, until the 64-bit counter is exhausted. */
  lemma FailureSequenceIsFresh(cfg: Config, chunks: seq<Bytes>, end: End)
    requires Lawful(cfg.codec) && cfg.events == RESPONSES
    ensures var frames := Frames(Concat(chunks));
            var k := Passed(GatewayReader(cfg), INITIAL.seen, frames);
            var out := Run(GatewayReader(cfg), chunks, end);
            StopsItself(cfg, frames, k) ==>
              out != [] && exists s: nat :: ReadsAsFailure(cfg, out[|out| - 1], s) && NumberedBelow(cfg, frames[..k], s)
  {
    var reader := GatewayReader(cfg);
    var frames, tail := Frames(Concat(chunks)), Tail(Concat(chunks));
    var k := Passed(reader, INITIAL.seen, frames);
    var known := Known(reader, INITIAL.seen, frames[..k]);
    ResponsesReadsOwnFailures();
    RunMatchesDeclaration(reader, chunks, end);
    KnownBoundsSequences(cfg, INITIAL.seen, frames[..k]);
    if StopsItself(cfg, frames, k) {
      var reason := if k == |frames| then (if |tail| > cfg.maxEventBytes then Oversized else EndReason(tail, end))
                    else if |frames[k]| > cfg.maxEventBytes then Oversized
                    else InspectFrame(cfg.codec, cfg.events, frames[k]).reason;
      ClosingOfItself(cfg, known, frames, k, tail, end, reason);
      ProtocolFailureReads(cfg, known, reason);
      assert NumberedBelow(cfg, frames[..k], SaturatingNext(known.lastSequence));
    }
  }

  lemma ClosingOfItself(cfg: Config, known: Identity, frames: seq<Bytes>, k: nat, tail: Bytes, end: End, reason: Reason)
    requires k <= |frames| && StopsItself(cfg, frames, k)
    requires reason == if k == |frames| then (if |tail| > cfg.maxEventBytes then Oversized else EndReason(tail, end))
                       else if |frames[k]| > cfg.maxEventBytes then Oversized
                       else InspectFrame(cfg.codec, cfg.events, frames[k]).reason
    ensures Closing(GatewayReader(cfg), known, frames[k..], tail, end) == ProtocolFailure(cfg, known, reason)
  {
  }

  predicate IsFailure(cfg: Config, frame: Bytes) {
    match InspectFrame(cfg.codec, cfg.events, frame)
    case Keep(event) => cfg.events.failing(event.kind)
    case _ => false
  }

  lemma ReplacedReads(cfg: Config, known: Identity, frame: Bytes) returns (sequence: nat)
    requires Lawful(cfg.codec) && ReadsOwnFailures(cfg.events) && known.lastSequence <= U64_MAX
    requires IsFailure(cfg, frame)
    ensures Judge(cfg, known, frame).Stop? && ReadsAsFailure(cfg, Judge(cfg, known, frame).last, sequence)
    ensures known.lastSequence <= sequence
    ensures SequenceOf(cfg, frame).Some? ==> SequenceOf(cfg, frame).value <= sequence
  {
    var event := InspectFrame(cfg.codec, cfg.events, frame).event;
    var seen := Observe(cfg, known, event);
    var failure := FailureOf(cfg, event);
    JudgementIsMonotone(cfg, known, frame);
    FailureFrameReads(cfg, seen, seen.lastSequence, failure.code, failure.message, failure.parameter);
    sequence := seen.lastSequence;
  }

  /** A provider's own failure is replaced by one numbered no lower than any
      frame up to and including it. */
  lemma ReplacedFailureIsNumbered(cfg: Config, chunks: seq<Bytes>, end: End)
    requires Lawful(cfg.codec) && cfg.events == RESPONSES
    ensures var frames := Frames(Concat(chunks));
            var k := Passed(GatewayReader(cfg), INITIAL.seen, frames);
            var out := Run(GatewayReader(cfg), chunks, end);
            !StopsItself(cfg, frames, k) && IsFailure(cfg, frames[k]) ==>
              && out != []
              && exists s: nat | ReadsAsFailure(cfg, out[|out| - 1], s) ::
                   && NumberedUpTo(cfg, frames[..k], s)
                   && (SequenceOf(cfg, frames[k]).Some? ==> SequenceOf(cfg, frames[k]).value <= s)
  {
    var reader := GatewayReader(cfg);
    var frames, tail := Frames(Concat(chunks)), Tail(Concat(chunks));
    var k := Passed(reader, INITIAL.seen, frames);
    var known := Known(reader, INITIAL.seen, frames[..k]);
    ResponsesReadsOwnFailures();
    RunMatchesDeclaration(reader, chunks, end);
    KnownBoundsSequences(cfg, INITIAL.seen, frames[..k]);
    if !StopsItself(cfg, frames, k) && IsFailure(cfg, frames[k]) {
      var s := ReplacedReads(cfg, known, frames[k]);
      assert NumberedUpTo(cfg, frames[..k], s);
    }
  }
}
