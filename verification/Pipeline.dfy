/** The synthesizer followed by the gateway's validator: a good stream passes
    byte for byte, a failed one keeps its events and ends in one
    `response.failed`. */
module Pipeline {
  import opened Prelude
  import opened Json
  import opened Responses
  import opened EventText
  import Framing
  import SseText
  import V = Validator
  import R = Reassembly
  import I = Inspect
  import P = ValidatorProofs
  import S = Synthesizer
  import Client
  import Conformance

  // ----- the bytes between the stages -----

  lemma {:induction false} WiresAreFrames(c: Codec, events: seq<Event>)
    requires Lawful(c)
    ensures Framing.Frames(Concat(Wires(c, events))) == Wires(c, events)
    ensures Framing.Tail(Concat(Wires(c, events))) == ""
    decreases |events|
  {
    if events != [] {
      var first, rest := Wire(c, events[0]), Concat(Wires(c, events[1..]));
      KindIsText(events[0].body);
      SseText.WrittenFrameLen(c, Kind(events[0].body), EventJson(events[0]), rest);
      assert (first + rest)[..|first|] == first && (first + rest)[|first|..] == rest;
      WiresAreFrames(c, events[1..]);
    }
  }

  // ----- one stream of events through the validator -----

  /** The first event whose frame the validator finds too long. */
  function FirstTooLong(cfg: V.Config, events: seq<Event>): (n: nat)
    ensures n <= |events|
    ensures forall i :: 0 <= i < n ==> |Wire(cfg.codec, events[i])| <= cfg.maxEventBytes
    ensures n < |events| ==> |Wire(cfg.codec, events[n])| > cfg.maxEventBytes
    decreases |events|
  {
    if events == [] || |Wire(cfg.codec, events[0])| > cfg.maxEventBytes then 0 else 1 + FirstTooLong(cfg, events[1..])
  }

  function Noted(c: Codec, seen: R.Identity, events: seq<Event>): R.Identity
    decreases |events|
  {
    if events == [] then seen else Noted(c, Note(c, seen, events[0]), events[1..])
  }

  /** The last frame a client gets for a stream of which `events[..n]` passed. */
  function LastFrame(cfg: V.Config, seen: R.Identity, events: seq<Event>, n: nat): Bytes
    requires n < |events|
  {
    var known := Noted(cfg.codec, seen, events[..n]);
    if |Wire(cfg.codec, events[n])| > cfg.maxEventBytes then V.ProtocolFailure(cfg, known, I.Oversized)
    else JudgementLast(JudgementOf(cfg, known, events[n]), Wire(cfg.codec, events[n]))
  }

  function JudgementLast(verdict: R.Verdict, frame: Bytes): Bytes {
    match verdict
    case GoOn(_, _) => frame
    case Stop(_, last) => last
  }

  /** An event the validator names as the synthesizer meant it. */
  predicate Sound(e: Event) {
    e.sequence <= U64_MAX && NamesResponse(e.body) && (HasResponse(e.body) ==> Client.GoodId(e.body.response.id))
  }

  predicate OneEnding(events: seq<Event>) {
    events != [] && forall i :: 0 <= i < |events| ==> (Ending(events[i].body) <==> i == |events| - 1)
  }

  function Cut(cfg: V.Config, events: seq<Event>): (n: nat)
    requires events != []
    ensures n < |events|
  {
    var long := FirstTooLong(cfg, events);
    if long < |events| then long else |events| - 1
  }

  /** Every frame of `frames` is kept and lets the stream go on. */
  predicate Passes(reader: R.Reader, seen: R.Identity, frames: seq<Bytes>)
    decreases |frames|
  {
    frames == [] || (&& |frames[0]| <= reader.maxEventBytes
                     && reader.judge(seen, frames[0]) == R.GoOn(reader.judge(seen, frames[0]).seen, true)
                     && Passes(reader, reader.judge(seen, frames[0]).seen, frames[1..]))
  }

  lemma {:induction false} PassingFrames(reader: R.Reader, seen: R.Identity, frames: seq<Bytes>, n: nat)
    requires n < |frames| && Passes(reader, seen, frames[..n])
    requires |frames[n]| > reader.maxEventBytes || reader.judge(R.Known(reader, seen, frames[..n]), frames[n]).Stop?
    ensures R.Passed(reader, seen, frames) == n && R.Kept(reader, seen, frames[..n]) == frames[..n]
    decreases n
  {
    if n == 0 {
      assert frames[..0] == [];
    } else {
      assert frames[..n][0] == frames[0] && frames[..n][1..] == frames[1..][..n - 1];
      PassingFrames(reader, reader.judge(seen, frames[0]).seen, frames[1..], n - 1);
      assert frames[..n] == [frames[0]] + frames[1..][..n - 1];
    }
  }

  lemma DeclaredAt(reader: R.Reader, seen: R.Identity, frames: seq<Bytes>, n: nat, end: R.End)
    requires n < |frames| && Passes(reader, seen, frames[..n])
    requires |frames[n]| > reader.maxEventBytes || reader.judge(R.Known(reader, seen, frames[..n]), frames[n]).Stop?
    ensures var known := R.Known(reader, seen, frames[..n]);
            R.Declared(reader, seen, frames, "", end)
            == frames[..n] + [if |frames[n]| > reader.maxEventBytes then reader.failure(known, I.Oversized)
                              else reader.judge(known, frames[n]).last]
  {
    PassingFrames(reader, seen, frames, n);
    assert frames[n..] != [] && frames[n..][0] == frames[n];
  }

  /** A reader that judges every synthesized event as the gateway does. */
  ghost predicate ReadsEvents(reader: R.Reader, cfg: V.Config) {
    && reader.maxEventBytes == cfg.maxEventBytes
    && (forall seen :: reader.failure(seen, I.Oversized) == V.ProtocolFailure(cfg, seen, I.Oversized))
    && (forall seen, e :: Sound(e) ==> reader.judge(seen, Wire(cfg.codec, e)) == JudgementOf(cfg, seen, e))
  }

  lemma GatewayReadsEvents(cfg: V.Config)
    requires Lawful(cfg.codec) && cfg.events == I.RESPONSES
    ensures ReadsEvents(V.GatewayReader(cfg), cfg)
  {
    forall seen, e | Sound(e)
      ensures V.GatewayReader(cfg).judge(seen, Wire(cfg.codec, e)) == JudgementOf(cfg, seen, e)
    {
      WireJudged(cfg, seen, e);
    }
  }

  /** A configuration whose gateway reads its own and the synthesizer's frames. */
  ghost predicate Understands(cfg: V.Config) {
    && Lawful(cfg.codec) && P.ReadsOwnFailures(cfg.events) && ReadsEvents(V.GatewayReader(cfg), cfg)
    && forall e :: Sound(e) && Presentable(e.body) ==>
         I.InspectFrame(cfg.codec, cfg.events, Wire(cfg.codec, e))
         == I.Keep(I.Inspected(Kind(e.body), Some(e.sequence), EventJson(e)))
  }

  lemma GatewayUnderstands(cfg: V.Config)
    requires Lawful(cfg.codec) && cfg.events == I.RESPONSES
    ensures Understands(cfg)
  {
    P.ResponsesReadsOwnFailures();
    GatewayReadsEvents(cfg);
    forall e | Sound(e) && Presentable(e.body)
      ensures I.InspectFrame(cfg.codec, cfg.events, Wire(cfg.codec, e))
           == I.Keep(I.Inspected(Kind(e.body), Some(e.sequence), EventJson(e)))
    {
      WireReads(cfg.codec, e);
    }
  }

  lemma JudgementByEnding(cfg: V.Config, seen: R.Identity, e: Event)
    ensures if Ending(e.body) then JudgementOf(cfg, seen, e).Stop?
            else JudgementOf(cfg, seen, e) == R.GoOn(Note(cfg.codec, seen, e), true)
  {
  }

  ghost predicate GoesOn(reader: R.Reader, c: Codec) {
    forall seen, e :: Sound(e) && !Ending(e.body) ==> reader.judge(seen, Wire(c, e)) == R.GoOn(Note(c, seen, e), true)
  }

  lemma ReaderGoesOn(reader: R.Reader, cfg: V.Config)
    requires ReadsEvents(reader, cfg)
    ensures GoesOn(reader, cfg.codec)
  {
    forall seen, e | Sound(e) && !Ending(e.body)
      ensures reader.judge(seen, Wire(cfg.codec, e)) == R.GoOn(Note(cfg.codec, seen, e), true)
    {
      JudgementByEnding(cfg, seen, e);
    }
  }

  lemma {:induction false} OrdinaryPass(reader: R.Reader, c: Codec, seen: R.Identity, events: seq<Event>)
    requires GoesOn(reader, c)
    requires forall i :: 0 <= i < |events| ==> Sound(events[i]) && !Ending(events[i].body)
    requires forall i :: 0 <= i < |events| ==> |Wire(c, events[i])| <= reader.maxEventBytes
    ensures Passes(reader, seen, Wires(c, events)) && R.Known(reader, seen, Wires(c, events)) == Noted(c, seen, events)
    decreases |events|
  {
    if events != [] {
      var e := events[0];
      assert Sound(e) && !Ending(e.body) && |Wire(c, e)| <= reader.maxEventBytes;
      assert reader.judge(seen, Wire(c, e)) == R.GoOn(Note(c, seen, e), true);
      OrdinaryPass(reader, c, Note(c, seen, e), events[1..]);
    }
  }

  lemma EventsPassUpToCut(reader: R.Reader, cfg: V.Config, seen: R.Identity, events: seq<Event>)
    requires ReadsEvents(reader, cfg)
    requires OneEnding(events) && forall i :: 0 <= i < |events| ==> Sound(events[i])
    ensures var n, wires := Cut(cfg, events), Wires(cfg.codec, events);
            Passes(reader, seen, wires[..n]) && R.Known(reader, seen, wires[..n]) == Noted(cfg.codec, seen, events[..n])
  {
    var n := Cut(cfg, events);
    ReaderGoesOn(reader, cfg);
    OrdinaryPass(reader, cfg.codec, seen, events[..n]);
    WiresTake(cfg.codec, events, n);
  }

  lemma ReadsCut(reader: R.Reader, cfg: V.Config, known: R.Identity, e: Event)
    requires ReadsEvents(reader, cfg) && Sound(e) && (Ending(e.body) || |Wire(cfg.codec, e)| > cfg.maxEventBytes)
    ensures if |Wire(cfg.codec, e)| > reader.maxEventBytes
            then reader.failure(known, I.Oversized) == V.ProtocolFailure(cfg, known, I.Oversized)
            else reader.judge(known, Wire(cfg.codec, e)) == JudgementOf(cfg, known, e)
                 && JudgementOf(cfg, known, e).Stop?
  {
    JudgementByEnding(cfg, known, e);
  }

  /** What the validator makes of a whole stream of sound events. */
  lemma EventsThroughReader(reader: R.Reader, cfg: V.Config, seen: R.Identity, events: seq<Event>, end: R.End)
    requires ReadsEvents(reader, cfg)
    requires OneEnding(events) && forall i :: 0 <= i < |events| ==> Sound(events[i])
    ensures R.Declared(reader, seen, Wires(cfg.codec, events), "", end)
         == Wires(cfg.codec, events)[..Cut(cfg, events)] + [LastFrame(cfg, seen, events, Cut(cfg, events))]
  {
    var c, n := cfg.codec, Cut(cfg, events);
    EventsPassUpToCut(reader, cfg, seen, events);
    ReadsCut(reader, cfg, Noted(c, seen, events[..n]), events[n]);
    DeclaredAt(reader, seen, Wires(c, events), n, end);
  }

  // ----- the synthesizer's events -----

  /** Every event of an accepted stream names the response by the one good
      identifier the stream opened with. */
  lemma {:induction false} NamesAgree(events: seq<Event>, i: nat)
    requires Client.Replay(events).Some? && i < |events|
    ensures var id := Client.Replay(events).value.id;
            && (id.Some? ==> Client.GoodId(id.value))
            && (HasResponse(events[i].body) ==> id == Some(events[i].body.response.id))
            && (events[i].body.Error? ==> events[i].body.responseId == id)
    decreases |events|
  {
    var n := |events| - 1;
    Client.AcceptedPrefix(events, n);
    var before, e := events[..n], events[n];
    ActKeepsName(Client.Replay(before).value, e.body);
    if n > 0 {
      NamesAgree(before, if i < n then i else 0);
    }
    if i < n {
      Client.NothingAfterEnd(events, i + 1);
      NothingEndsBefore(events, i);
    }
  }

  lemma ActKeepsName(v: Client.View, body: Body)
    requires Client.Act(v, body).Some?
    ensures var w := Client.Act(v, body).value;
            && (v.id.Some? ==> w.id == v.id)
            && (w.id.Some? && w.id != v.id ==> Client.GoodId(w.id.value))
            && (HasResponse(body) ==> w.id == Some(body.response.id))
            && (body.Error? ==> body.responseId == w.id)
            && w.id == (if HasResponse(body) then Some(body.response.id)
                        else if body.Error? && body.responseId.Some? then body.responseId
                        else v.id)
  {
  }

  lemma NothingEndsBefore(events: seq<Event>, i: nat)
    requires Client.Replay(events).Some? && i < |events| - 1
    ensures !events[i].body.Error?
  {
    Client.AcceptedEvents(events, i);
  }

  lemma {:induction false} NotedAppend(c: Codec, seen: R.Identity, events: seq<Event>, e: Event)
    ensures Noted(c, seen, events + [e]) == Note(c, Noted(c, seen, events), e)
    decreases |events|
  {
    if events == [] {
      assert [] + [e] == [e];
    } else {
      assert (events + [e])[1..] == events[1..] + [e];
      NotedAppend(c, Note(c, seen, events[0]), events[1..], e);
    }
  }

  /** What the validator knows after an accepted stream. */
  lemma {:induction false} NotedStream(c: Codec, events: seq<Event>)
    requires Client.Replay(events).Some?
    ensures var known := Noted(c, R.INITIAL.seen, events);
            && known.responseId == Client.Replay(events).value.id
            && known.lastSequence == if events == [] then 0 else |events| - 1
    decreases |events|
  {
    if events != [] {
      var n := |events| - 1;
      Client.AcceptedPrefix(events, n);
      NotedStream(c, events[..n]);
      NotedAppend(c, R.INITIAL.seen, events[..n], events[n]);
      assert events[..n] + [events[n]] == events;
      Client.AcceptedEvents(events, n);
      ActKeepsName(Client.Replay(events[..n]).value, events[n].body);
    }
  }

  lemma AcceptedIsSound(events: seq<Event>)
    requires Client.Replay(events).Some? && |events| <= U64_MAX + 1
    ensures forall i :: 0 <= i < |events| ==> Sound(events[i])
  {
    forall i | 0 <= i < |events|
      ensures Sound(events[i])
    {
      NamesAgree(events, i);
      Client.AcceptedEvents(events, i);
    }
  }

  // ----- the two stages together -----

  /** What the gateway's client receives when the synthesized events arrive cut
      into `parts`. */
  function Served(cfg: V.Config, parts: seq<Bytes>, end: R.End): seq<Bytes> {
    R.Run(V.GatewayReader(cfg), parts, end)
  }

  predicate AllFit(cfg: V.Config, events: seq<Event>) {
    forall i :: 0 <= i < |events| ==> |Wire(cfg.codec, events[i])| <= cfg.maxEventBytes
  }

  /** What is known before event `n`. */
  function KnownAt(cfg: V.Config, events: seq<Event>, n: nat): R.Identity
    requires n <= |events|
  {
    Noted(cfg.codec, R.INITIAL.seen, events[..n])
  }

  /** An accepted, ended stream whose sequence numbers fit 64 bits. */
  predicate Whole(events: seq<Event>) {
    OneEnding(events) && Client.Replay(events).Some? && |events| <= U64_MAX + 1
  }

  lemma KnownBefore(cfg: V.Config, events: seq<Event>, n: nat)
    requires Whole(events) && n < |events|
    ensures KnownAt(cfg, events, n).lastSequence == (if n == 0 then 0 else n - 1) <= U64_MAX
  {
    Client.AcceptedPrefix(events, n);
    NotedStream(cfg.codec, events[..n]);
  }

  lemma CutWhenFit(cfg: V.Config, events: seq<Event>)
    requires events != []
    ensures AllFit(cfg, events) ==> Cut(cfg, events) == |events| - 1
    ensures !AllFit(cfg, events) ==> Cut(cfg, events) == FirstTooLong(cfg, events) < |events|
  {
  }

  lemma ServedEvents(cfg: V.Config, parts: seq<Bytes>, events: seq<Event>, end: R.End)
    requires Understands(cfg) && Whole(events) && Concat(parts) == Concat(Wires(cfg.codec, events))
    ensures Served(cfg, parts, end)
         == Wires(cfg.codec, events)[..Cut(cfg, events)] + [LastFrame(cfg, R.INITIAL.seen, events, Cut(cfg, events))]
  {
    var reader := V.GatewayReader(cfg);
    AcceptedIsSound(events);
    WiresAreFrames(cfg.codec, events);
    EventsThroughReader(reader, cfg, R.INITIAL.seen, events, end);
    R.RunMatchesDeclaration(reader, parts, end);
  }

  /** A frame too long ends the stream where it stands. */
  lemma ServedTooLong(cfg: V.Config, parts: seq<Bytes>, events: seq<Event>, end: R.End)
    requires Understands(cfg) && Whole(events) && Concat(parts) == Concat(Wires(cfg.codec, events))
    requires !AllFit(cfg, events)
    ensures var n := FirstTooLong(cfg, events);
            && n < |events|
            && Served(cfg, parts, end)
               == Wires(cfg.codec, events)[..n] + [V.ProtocolFailure(cfg, KnownAt(cfg, events, n), I.Oversized)]
  {
    ServedEvents(cfg, parts, events, end);
    CutWhenFit(cfg, events);
  }

  lemma LastFrameFits(cfg: V.Config, seen: R.Identity, events: seq<Event>, n: nat)
    requires n < |events| && (events[n].body.Completed? || events[n].body.Incomplete?)
    requires |Wire(cfg.codec, events[n])| <= cfg.maxEventBytes
    ensures LastFrame(cfg, seen, events, n) == Wire(cfg.codec, events[n])
  {
  }

  lemma AllButLast<T>(all: seq<T>)
    requires all != []
    ensures all[..|all| - 1] + [all[|all| - 1]] == all
  {
  }

  lemma ServedWhole(cfg: V.Config, parts: seq<Bytes>, events: seq<Event>, end: R.End)
    requires Understands(cfg) && Whole(events) && Concat(parts) == Concat(Wires(cfg.codec, events))
    requires AllFit(cfg, events) && (events[|events| - 1].body.Completed? || events[|events| - 1].body.Incomplete?)
    ensures Served(cfg, parts, end) == Wires(cfg.codec, events)
  {
    var n := |events| - 1;
    ServedEvents(cfg, parts, events, end);
    CutWhenFit(cfg, events);
    LastFrameFits(cfg, R.INITIAL.seen, events, n);
    AllButLast(Wires(cfg.codec, events));
  }

  lemma FinalIsNoFailure(cfg: V.Config, known: R.Identity, e: Event)
    requires Understands(cfg) && Sound(e) && (e.body.Completed? || e.body.Incomplete?) && known.lastSequence <= U64_MAX
    ensures Wire(cfg.codec, e) != V.ProtocolFailure(cfg, known, I.Oversized)
  {
    KindLengths(e.body);
    P.FailureFrameReads(cfg, known, V.SaturatingNext(known.lastSequence), "invalid_request", cfg.diagnosis(I.Oversized),
                        None);
  }

  lemma SeqsDiffer<T>(all: seq<T>, n: nat, last: T)
    requires n < |all| && (n == |all| - 1 ==> last != all[n])
    ensures all[..n] + [last] != all
  {
    assert (all[..n] + [last])[n] == last;
  }

  lemma ServedNotWhole(cfg: V.Config, parts: seq<Bytes>, events: seq<Event>, end: R.End)
    requires Understands(cfg) && Whole(events) && Concat(parts) == Concat(Wires(cfg.codec, events))
    requires !AllFit(cfg, events) && (events[|events| - 1].body.Completed? || events[|events| - 1].body.Incomplete?)
    ensures Served(cfg, parts, end) != Wires(cfg.codec, events)
  {
    var n := FirstTooLong(cfg, events);
    var known := KnownAt(cfg, events, n);
    ServedTooLong(cfg, parts, events, end);
    KnownBefore(cfg, events, n);
    AcceptedIsSound(events);
    if n == |events| - 1 {
      FinalIsNoFailure(cfg, known, events[n]);
    }
    SeqsDiffer(Wires(cfg.codec, events), n, V.ProtocolFailure(cfg, known, I.Oversized));
  }

  /** The frame that takes the place of the synthesizer's error. */
  function ErrorFrame(cfg: V.Config, known: R.Identity, e: Event): Bytes
    requires e.body.Error?
  {
    if e.body.message == "" then V.ProtocolFailure(cfg, known, I.NoMessage)
    else Replacement(cfg, Note(cfg.codec, known, e))
  }

  lemma LastFrameFails(cfg: V.Config, seen: R.Identity, events: seq<Event>, n: nat)
    requires n < |events| && events[n].body.Error? && |Wire(cfg.codec, events[n])| <= cfg.maxEventBytes
    ensures LastFrame(cfg, seen, events, n) == ErrorFrame(cfg, Noted(cfg.codec, seen, events[..n]), events[n])
  {
  }

  lemma ServedFailed(cfg: V.Config, parts: seq<Bytes>, events: seq<Event>, end: R.End)
    requires Understands(cfg) && Whole(events) && Concat(parts) == Concat(Wires(cfg.codec, events))
    requires AllFit(cfg, events) && events[|events| - 1].body.Error?
    ensures var n := |events| - 1;
            Served(cfg, parts, end)
            == Wires(cfg.codec, events)[..n] + [ErrorFrame(cfg, KnownAt(cfg, events, n), events[n])]
  {
    ServedEvents(cfg, parts, events, end);
    CutWhenFit(cfg, events);
    LastFrameFails(cfg, R.INITIAL.seen, events, |events| - 1);
  }

  /** A client that reads this has been told that the response failed. */
  function Failure(sequence: nat, event: Value): I.Disposition {
    I.Keep(I.Inspected("response.failed", Some(sequence), event))
  }

  function ResponseIdOf(event: Value): Option<string> { AsStr(At(Get(event, "response"), "id")) }

  lemma FailureEventId(cfg: V.Config, seen: R.Identity, sequence: nat, code: string, message: string)
    requires Lawful(cfg.codec) && sequence <= U64_MAX
             && (seen.responseId.Some? ==> Client.GoodId(seen.responseId.value))
    ensures seen.responseId.Some? ==>
              ResponseIdOf(V.FailureEvent(cfg, seen, sequence, code, message, None)) == seen.responseId
  {
    P.FailureId(cfg, seen, sequence, code, message, None);
  }

  /** How the gateway, and so a client, reads a frame. */
  function Reading(cfg: V.Config): Bytes -> I.Disposition { frame => I.InspectFrame(cfg.codec, cfg.events, frame) }

  ghost predicate ReadsFailures(read: Bytes -> I.Disposition, cfg: V.Config) {
    forall seen, sequence: nat, code, message :: sequence <= U64_MAX ==>
      read(V.FailureFrame(cfg, seen, sequence, code, message, None))
      == Failure(sequence, V.FailureEvent(cfg, seen, sequence, code, message, None))
  }

  lemma GatewayReadsFailures(cfg: V.Config)
    requires Lawful(cfg.codec) && P.ReadsOwnFailures(cfg.events)
    ensures ReadsFailures(Reading(cfg), cfg)
  {
    forall seen, sequence: nat, code, message | sequence <= U64_MAX
      ensures Reading(cfg)(V.FailureFrame(cfg, seen, sequence, code, message, None))
           == Failure(sequence, V.FailureEvent(cfg, seen, sequence, code, message, None))
    {
      P.FailureFrameReads(cfg, seen, sequence, code, message, None);
    }
  }

  /** The number an error's replacement carries: the error's own, but when a
      lone error has no message it is one, not zero. */
  function ErrorSequence(e: Event): nat
    requires e.body.Error?
  {
    if e.body.message == "" && e.sequence == 0 then 1 else e.sequence
  }

  lemma ProtocolFailureReads(read: Bytes -> I.Disposition, cfg: V.Config, seen: R.Identity, reason: I.Reason,
                             sequence: nat)
    returns (event: Value)
    requires Lawful(cfg.codec) && ReadsFailures(read, cfg) && sequence == seen.lastSequence + 1 <= U64_MAX
    requires seen.responseId.Some? ==> Client.GoodId(seen.responseId.value)
    ensures read(V.ProtocolFailure(cfg, seen, reason)) == Failure(sequence, event)
    ensures seen.responseId.Some? ==> ResponseIdOf(event) == seen.responseId
  {
    event := V.FailureEvent(cfg, seen, sequence, "invalid_request", cfg.diagnosis(reason), None);
    FailureEventId(cfg, seen, sequence, "invalid_request", cfg.diagnosis(reason));
  }

  lemma ReplacementReads(read: Bytes -> I.Disposition, cfg: V.Config, seen: R.Identity) returns (event: Value)
    requires Lawful(cfg.codec) && ReadsFailures(read, cfg) && seen.lastSequence <= U64_MAX
    requires seen.responseId.Some? ==> Client.GoodId(seen.responseId.value)
    ensures read(Replacement(cfg, seen)) == Failure(seen.lastSequence, event)
    ensures seen.responseId.Some? ==> ResponseIdOf(event) == seen.responseId
  {
    event := V.FailureEvent(cfg, seen, seen.lastSequence, "invalid_request", cfg.failureText("invalid_request"), None);
    FailureEventId(cfg, seen, seen.lastSequence, "invalid_request", cfg.failureText("invalid_request"));
  }

  /** Before the last event nothing ends the stream for a client. */
  lemma NoEarlierEnding(cfg: V.Config, events: seq<Event>, i: nat)
    requires Lawful(cfg.codec) && cfg.events == I.RESPONSES && Whole(events) && i < |events| - 1
    ensures !P.EndsStream(cfg, Wire(cfg.codec, events[i]))
  {
    var e := events[i];
    AcceptedIsSound(events);
    WireReads(cfg.codec, e);
    KindIsTerminal(e.body);
    KindIsFailing(e.body);
  }

  /** The identity known before an error is the one the error states. */
  lemma KnownNamesError(cfg: V.Config, events: seq<Event>)
    requires Whole(events) && events[|events| - 1].body.Error?
    ensures KnownAt(cfg, events, |events| - 1).responseId == events[|events| - 1].body.responseId
    ensures events[|events| - 1].sequence == |events| - 1
  {
    var n := |events| - 1;
    Client.AcceptedEvents(events, n);
    Client.AcceptedPrefix(events, n);
    NotedStream(cfg.codec, events[..n]);
  }

  lemma ErrorFrameReads(read: Bytes -> I.Disposition, cfg: V.Config, known: R.Identity, e: Event) returns (event: Value)
    requires Lawful(cfg.codec) && ReadsFailures(read, cfg) && e.body.Error? && e.sequence <= U64_MAX
             && NamesResponse(e.body)
    requires known.lastSequence == (if e.sequence == 0 then 0 else e.sequence - 1)
             && known.responseId == e.body.responseId
    ensures read(ErrorFrame(cfg, known, e)) == Failure(ErrorSequence(e), event)
    ensures e.body.responseId.Some? ==> ResponseIdOf(event) == e.body.responseId
  {
    if e.body.message == "" {
      event := ProtocolFailureReads(read, cfg, known, I.NoMessage, ErrorSequence(e));
    } else {
      event := ReplacementReads(read, cfg, Note(cfg.codec, known, e));
    }
  }

  /** What is known when an error ends the stream. */
  lemma KnownBeforeError(cfg: V.Config, events: seq<Event>)
    requires Whole(events) && events[|events| - 1].body.Error?
    ensures var n := |events| - 1;
            var known := KnownAt(cfg, events, n);
            && events[n].sequence == n <= U64_MAX && NamesResponse(events[n].body)
            && known.lastSequence == (if n == 0 then 0 else n - 1) && known.responseId == events[n].body.responseId
  {
    AcceptedIsSound(events);
    KnownBefore(cfg, events, |events| - 1);
    KnownNamesError(cfg, events);
  }

  /** The identifier known once the stream has opened. */
  lemma KnownNamesResponse(cfg: V.Config, events: seq<Event>, n: nat)
    requires Whole(events) && n < |events|
    ensures n > 0 ==> events[0].body.Created? && Client.GoodId(events[0].body.response.id)
    ensures KnownAt(cfg, events, n).responseId == if n > 0 then Some(events[0].body.response.id) else None
  {
    Client.AcceptedPrefix(events, n);
    NotedStream(cfg.codec, events[..n]);
    if n > 0 {
      Client.EndedByLast(events);
      Client.Opening(events);
      NamesAgree(events[..n], 0);
    } else {
      assert events[..0] == [];
    }
  }

  // ----- the pipeline theorems -----

  /** The events of a whole synthesizer run. */
  function Synthesized(scfg: S.Config, chunks: seq<Bytes>, end: S.End): seq<Event> {
    S.Run(scfg, chunks, end).state.events
  }

  ghost predicate RunOf(scfg: S.Config, chunks: seq<Bytes>, end: S.End, events: seq<Event>) {
    events == Synthesized(scfg, chunks, end) && |events| <= U64_MAX + 1
  }

  /** The gateway `cfg` is handed the frames of `events`, cut into `parts`. */
  ghost predicate Handed(cfg: V.Config, parts: seq<Bytes>, events: seq<Event>) {
    Lawful(cfg.codec) && cfg.events == I.RESPONSES && Concat(parts) == Concat(Wires(cfg.codec, events))
  }

  lemma RunIsWhole(scfg: S.Config, chunks: seq<Bytes>, end: S.End, events: seq<Event>)
    requires RunOf(scfg, chunks, end, events)
    ensures Whole(events)
  {
    Conformance.RunShape(scfg, chunks, end);
    Conformance.RunConforms(scfg, chunks, end);
  }

  predicate Finished(events: seq<Event>) {
    events != [] && (events[|events| - 1].body.Completed? || events[|events| - 1].body.Incomplete?)
  }

  predicate Failed(events: seq<Event>) { events != [] && events[|events| - 1].body.Error? }

  lemma FinishedUnchanged(cfg: V.Config, parts: seq<Bytes>, events: seq<Event>, end: R.End)
    requires Handed(cfg, parts, events) && Whole(events) && Finished(events)
    ensures Served(cfg, parts, end) == Wires(cfg.codec, events) <==> AllFit(cfg, events)
  {
    GatewayUnderstands(cfg);
    if AllFit(cfg, events) {
      ServedWhole(cfg, parts, events, end);
    } else {
      ServedNotWhole(cfg, parts, events, end);
    }
  }

  /** For every upstream input and every cut between the stages, a run that
      finishes reaches the gateway's client byte for byte, if and only if each
      of its frames is within the gateway's limit. */
  lemma FinishedRunUnchanged(scfg: S.Config, chunks: seq<Bytes>, upstreamEnd: S.End, events: seq<Event>,
                             cfg: V.Config, parts: seq<Bytes>, end: R.End)
    requires RunOf(scfg, chunks, upstreamEnd, events) && Handed(cfg, parts, events) && Finished(events)
    ensures Served(cfg, parts, end) == Wires(cfg.codec, events) <==> AllFit(cfg, events)
  {
    RunIsWhole(scfg, chunks, upstreamEnd, events);
    FinishedUnchanged(cfg, parts, events, end);
  }

  lemma FailedEndsOnce(cfg: V.Config, parts: seq<Bytes>, events: seq<Event>, end: R.End)
    returns (last: Bytes, event: Value)
    requires Understands(cfg) && Whole(events) && Concat(parts) == Concat(Wires(cfg.codec, events))
    requires Failed(events) && AllFit(cfg, events)
    ensures Served(cfg, parts, end) == Wires(cfg.codec, events)[..|events| - 1] + [last]
    ensures Reading(cfg)(last) == Failure(ErrorSequence(events[|events| - 1]), event)
    ensures events[|events| - 1].body.responseId.Some? ==> ResponseIdOf(event) == events[|events| - 1].body.responseId
  {
    last := ErrorFrame(cfg, KnownAt(cfg, events, |events| - 1), events[|events| - 1]);
    ServedFailed(cfg, parts, events, end);
    GatewayReadsFailures(cfg);
    KnownBeforeError(cfg, events);
    event := ErrorFrameReads(Reading(cfg), cfg, KnownAt(cfg, events, |events| - 1), events[|events| - 1]);
  }

  /** A run that fails keeps all its earlier events, and its error becomes the
      stream's only ending: one `response.failed` for the same response. */
  lemma FailedRunEndsOnce(scfg: S.Config, chunks: seq<Bytes>, upstreamEnd: S.End, events: seq<Event>,
                          cfg: V.Config, parts: seq<Bytes>, end: R.End) returns (last: Bytes, event: Value)
    requires RunOf(scfg, chunks, upstreamEnd, events) && Handed(cfg, parts, events) && Failed(events)
             && AllFit(cfg, events)
    ensures Served(cfg, parts, end) == Wires(cfg.codec, events)[..|events| - 1] + [last]
    ensures Reading(cfg)(last) == Failure(ErrorSequence(events[|events| - 1]), event)
    ensures events[|events| - 1].body.responseId.Some? ==> ResponseIdOf(event) == events[|events| - 1].body.responseId
    ensures forall i :: 0 <= i < |events| - 1 ==> !P.EndsStream(cfg, Wire(cfg.codec, events[i]))
  {
    RunIsWhole(scfg, chunks, upstreamEnd, events);
    GatewayUnderstands(cfg);
    last, event := FailedEndsOnce(cfg, parts, events, end);
    forall i | 0 <= i < |events| - 1
      ensures !P.EndsStream(cfg, Wire(cfg.codec, events[i]))
    {
      NoEarlierEnding(cfg, events, i);
    }
  }

  lemma OversizedEnds(cfg: V.Config, parts: seq<Bytes>, events: seq<Event>, end: R.End)
    returns (n: nat, last: Bytes, event: Value)
    requires Understands(cfg) && Whole(events) && Concat(parts) == Concat(Wires(cfg.codec, events))
    requires !AllFit(cfg, events)
    ensures n == FirstTooLong(cfg, events) < |events|
    ensures Served(cfg, parts, end) == Wires(cfg.codec, events)[..n] + [last]
    ensures Reading(cfg)(last) == Failure(if n > 0 then n else 1, event)
    ensures n > 0 ==> events[0].body.Created? && ResponseIdOf(event) == Some(events[0].body.response.id)
  {
    n := FirstTooLong(cfg, events);
    last := V.ProtocolFailure(cfg, KnownAt(cfg, events, n), I.Oversized);
    ServedTooLong(cfg, parts, events, end);
    GatewayReadsFailures(cfg);
    KnownBefore(cfg, events, n);
    KnownNamesResponse(cfg, events, n);
    event := ProtocolFailureReads(Reading(cfg), cfg, KnownAt(cfg, events, n), I.Oversized, if n > 0 then n else 1);
  }

  /** A frame beyond the limit ends the stream in its place, in one
      `response.failed` that takes its number. */
  lemma OversizedRunEnds(scfg: S.Config, chunks: seq<Bytes>, upstreamEnd: S.End, events: seq<Event>,
                         cfg: V.Config, parts: seq<Bytes>, end: R.End) returns (n: nat, last: Bytes, event: Value)
    requires RunOf(scfg, chunks, upstreamEnd, events) && Handed(cfg, parts, events) && !AllFit(cfg, events)
    ensures n == FirstTooLong(cfg, events) < |events|
    ensures Served(cfg, parts, end) == Wires(cfg.codec, events)[..n] + [last]
    ensures Reading(cfg)(last) == Failure(if n > 0 then n else 1, event)
    ensures n > 0 ==> events[0].body.Created? && ResponseIdOf(event) == Some(events[0].body.response.id)
  {
    RunIsWhole(scfg, chunks, upstreamEnd, events);
    GatewayUnderstands(cfg);
    n, last, event := OversizedEnds(cfg, parts, events, end);
  }
}
