/** How the gateway's validator reads the synthesizer's events. */
module EventText {
  import opened Prelude
  import opened Json
  import opened Responses
  import I = Inspect
  import V = Validator
  import R = Reassembly
  import opened SseText
  import opened ValidatorProofs
  import Client

  function Wire(c: Codec, e: Event): Bytes { V.SseFrame(c, Kind(e.body), EventJson(e)) }

  function Wires(c: Codec, events: seq<Event>): (wires: seq<Bytes>)
    ensures |wires| == |events|
    ensures forall i :: 0 <= i < |events| ==> wires[i] == Wire(c, events[i])
  {
    if events == [] then [] else [Wire(c, events[0])] + Wires(c, events[1..])
  }

  lemma {:induction false} WiresTake(c: Codec, events: seq<Event>, n: nat)
    requires n <= |events|
    ensures Wires(c, events)[..n] == Wires(c, events[..n])
  {
    if n > 0 {
      WiresTake(c, events[1..], n - 1);
      assert events[..n][1..] == events[1..][..n - 1];
    }
  }

  // ----- kinds -----

  predicate OfResponse(body: Body) {
    body.Created? || body.InProgress? || body.Completed? || body.Incomplete? || body.Error? || body.ItemAdded?
    || body.ItemDone?
  }

  predicate OfSummary(body: Body) {
    body.SummaryPartAdded? || body.SummaryDelta? || body.SummaryDone? || body.SummaryPartDone?
  }

  predicate OfContent(body: Body) {
    body.ContentPartAdded? || body.TextDelta? || body.TextDone? || body.ContentPartDone?
  }

  lemma ResponseKindIsText(body: Body)
    requires OfResponse(body)
    ensures KindText(Kind(body))
  {
  }

  lemma SummaryKindIsText(body: Body)
    requires OfSummary(body)
    ensures KindText(Kind(body))
  {
  }

  lemma ContentKindIsText(body: Body)
    requires OfContent(body)
    ensures KindText(Kind(body))
  {
  }

  lemma CallKindIsText(body: Body)
    requires !OfResponse(body) && !OfSummary(body) && !OfContent(body)
    ensures KindText(Kind(body))
  {
  }

  lemma KindIsText(body: Body)
    ensures KindText(Kind(body))
  {
    if OfResponse(body) {
      ResponseKindIsText(body);
    } else if OfSummary(body) {
      SummaryKindIsText(body);
    } else if OfContent(body) {
      ContentKindIsText(body);
    } else {
      CallKindIsText(body);
    }
  }

  lemma KindIsKnown(body: Body)
    ensures I.RESPONSES.known(Kind(body))
  {
  }

  lemma KindIsNoMetadata(body: Body)
    ensures !I.RESPONSES.metadata(Kind(body))
  {
    assert Kind(body)[0] != 'c';
    assert |Kind(body)| != |"response.metadata"|;
  }

  predicate HasShapedResponse(body: Body) { body.Created? || body.Completed? || body.Incomplete? }

  predicate HasResponse(body: Body) { HasShapedResponse(body) || body.InProgress? }

  predicate HasDelta(body: Body) { body.SummaryDelta? || body.TextDelta? || body.ArgumentsDelta? || body.InputDelta? }

  predicate HasItem(body: Body) { body.ItemAdded? || body.ItemDone? }

  lemma KindLengths(body: Body)
    ensures HasShapedResponse(body) <==> |Kind(body)| in {16, 18, 19}
    ensures body.Error? <==> |Kind(body)| == 5
    ensures body.Created? ==> |Kind(body)| == 16
    ensures body.Completed? ==> |Kind(body)| == 18 && Kind(body) == "response.completed"
    ensures body.Incomplete? ==> |Kind(body)| == 19 && Kind(body) == "response.incomplete"
  {
  }

  lemma KindIsLifecycle(body: Body)
    ensures I.RESPONSES.lifecycle(Kind(body)) <==> HasShapedResponse(body)
  {
    KindLengths(body);
  }

  lemma KindIsTerminal(body: Body)
    ensures I.RESPONSES.terminal(Kind(body)) <==> body.Completed? || body.Incomplete?
  {
    KindLengths(body);
  }

  lemma KindIsFailing(body: Body)
    ensures I.RESPONSES.failing(Kind(body)) <==> body.Error?
    ensures Kind(body) != "response.cancelled"
    ensures Kind(body) == "error" <==> body.Error?
  {
    KindLengths(body);
  }

  lemma KindIsItem(body: Body)
    ensures I.RESPONSES.item(Kind(body)) ==> HasItem(body)
  {
    KindLengths(body);
  }

  lemma KindIsDelta(body: Body)
    ensures I.RESPONSES.delta(Kind(body)) ==> HasDelta(body)
  {
    KindLengths(body);
  }

  // ----- members -----

  lemma TypeAndSequence(e: Event)
    requires e.sequence <= U64_MAX
    ensures AsStr(Get(EventJson(e), "type")) == Some(Kind(e.body))
    ensures AsU64(Get(EventJson(e), "sequence_number")) == Some(e.sequence)
  {
  }

  /** Looking up any other member finds the body's own. */
  lemma OtherField(fields: map<string, Value>, kind: Value, sequence: Value, key: string)
    requires key != "type" && key != "sequence_number"
    ensures Get(Obj(fields["type" := kind]["sequence_number" := sequence]), key) == Get(Obj(fields), key)
  {
  }

  lemma BodyField(e: Event, key: string)
    requires key != "type" && key != "sequence_number"
    ensures Get(EventJson(e), key) == Get(Obj(BodyFields(e.body)), key)
  {
    OtherField(BodyFields(e.body), Str(Kind(e.body)), Num(e.sequence), key);
  }

  lemma EnvelopeIdentity(e: Envelope)
    ensures Get(EnvelopeJson(e), "id") == Some(Str(e.id)) && Get(EnvelopeJson(e), "model") == Some(Str(e.model))
    ensures Get(EnvelopeJson(e), "headers").None?
  {
  }

  lemma ResponseField(body: Body)
    ensures Get(Obj(BodyFields(body)), "response")
         == if HasResponse(body) then Some(EnvelopeJson(body.response)) else None
  {
  }

  lemma DeltaField(body: Body)
    requires HasDelta(body)
    ensures Get(Obj(BodyFields(body)), "delta") == Some(Str(body.delta))
  {
  }

  lemma ItemField(body: Body)
    requires HasItem(body)
    ensures Get(Obj(BodyFields(body)), "item") == Some(ItemJson(body.item)) && ItemJson(body.item).Obj?
  {
  }

  lemma IdAndHeaderFields(body: Body)
    ensures Get(Obj(BodyFields(body)), "headers").None?
    ensures Get(Obj(BodyFields(body)), "response_id")
         == if body.Error? && body.responseId.Some? then Some(Str(body.responseId.value)) else None
  {
  }

  lemma MessageField(body: Body)
    requires body.Error?
    ensures Get(Obj(BodyFields(body)), "message") == Some(Str(body.message))
    ensures Get(Obj(BodyFields(body)), "code") == Some(Str("invalid_request"))
    ensures Get(Obj(BodyFields(body)), "error").None? && Get(Obj(BodyFields(body)), "param").None?
  {
  }

  // ----- what the gateway makes of an event -----

  /** An event with the shape the gateway asks for: an identifier it accepts,
      and a reason given for an error. */
  predicate Presentable(body: Body) {
    && (HasResponse(body) ==> Client.GoodId(body.response.id))
    && (body.Error? ==> body.message != "")
  }

  lemma NoFault(c: Codec, ev: I.Events, kind: string, value: Value)
    requires kind != "response.cancelled"
    requires ev.lifecycle(kind) ==> Get(value, "response").Some? && Get(value, "response").value.Obj?
    requires ev.lifecycle(kind) ==> I.SafeText(c, At(Get(value, "response"), "id"))
    requires ev.delta(kind) ==> AsStr(Get(value, "delta")).Some?
    requires ev.item(kind) ==> Get(value, "item").Some? && Get(value, "item").value.Obj?
    requires kind == "error" ==> TextOf(Get(value, "message")) != ""
    ensures I.ShapeFault(c, ev, kind, value).None?
  {
  }

  lemma ResponseIsSafe(c: Codec, e: Event)
    requires Lawful(c) && HasResponse(e.body) && Client.GoodId(e.body.response.id)
    ensures Get(EventJson(e), "response").Some? && Get(EventJson(e), "response").value.Obj?
    ensures I.SafeText(c, At(Get(EventJson(e), "response"), "id"))
  {
    BodyField(e, "response");
    ResponseField(e.body);
    EnvelopeIdentity(e.body.response);
  }

  lemma DeltaIsPresent(e: Event)
    ensures I.RESPONSES.delta(Kind(e.body)) ==> AsStr(Get(EventJson(e), "delta")).Some?
  {
    KindIsDelta(e.body);
    if HasDelta(e.body) {
      BodyField(e, "delta");
      DeltaField(e.body);
    }
  }

  lemma ItemIsPresent(e: Event)
    ensures I.RESPONSES.item(Kind(e.body)) ==> Get(EventJson(e), "item").Some? && Get(EventJson(e), "item").value.Obj?
  {
    KindIsItem(e.body);
    if HasItem(e.body) {
      BodyField(e, "item");
      ItemField(e.body);
    }
  }

  lemma MessageIsPresent(e: Event)
    requires e.body.Error?
    ensures Get(EventJson(e), "message") == Some(Str(e.body.message))
  {
    BodyField(e, "message");
    MessageField(e.body);
  }

  lemma EventIsWellShaped(c: Codec, e: Event)
    requires Lawful(c) && Presentable(e.body)
    ensures I.ShapeFault(c, I.RESPONSES, Kind(e.body), EventJson(e)).None?
  {
    KindIsLifecycle(e.body);
    KindIsFailing(e.body);
    DeltaIsPresent(e);
    ItemIsPresent(e);
    if HasResponse(e.body) {
      ResponseIsSafe(c, e);
    }
    if e.body.Error? {
      MessageIsPresent(e);
    }
    NoFault(c, I.RESPONSES, Kind(e.body), EventJson(e));
  }

  /** The gateway reads back exactly the event the synthesizer wrote. */
  lemma WireReads(c: Codec, e: Event)
    requires Lawful(c) && Presentable(e.body) && e.sequence <= U64_MAX
    ensures I.InspectFrame(c, I.RESPONSES, Wire(c, e))
         == I.Keep(I.Inspected(Kind(e.body), Some(e.sequence), EventJson(e)))
  {
    KindIsText(e.body);
    KindIsKnown(e.body);
    KindIsNoMetadata(e.body);
    TypeAndSequence(e);
    EventIsWellShaped(c, e);
    InspectWritten(c, I.RESPONSES, Kind(e.body), EventJson(e));
    WellShapedEventIsKept(c, I.RESPONSES, Kind(e.body), e.sequence, EventJson(e));
  }

  lemma NoMessageFault(c: Codec, ev: I.Events, value: Value)
    requires !ev.lifecycle("error") && !ev.delta("error") && !ev.item("error")
    requires TextOf(Get(value, "message")) == ""
    ensures I.ShapeFault(c, ev, "error", value) == Some(I.NoMessage)
  {
  }

  lemma ErrorIsPlain()
    ensures var ev := I.RESPONSES;
            !ev.lifecycle("error") && !ev.delta("error") && !ev.item("error")
  {
  }

  /** An error without a reason is rejected. */
  lemma BlankErrorRejected(c: Codec, e: Event)
    requires Lawful(c) && e.sequence <= U64_MAX && e.body.Error? && e.body.message == ""
    ensures I.InspectFrame(c, I.RESPONSES, Wire(c, e)) == I.Reject(I.NoMessage)
  {
    KindIsText(e.body);
    KindIsKnown(e.body);
    KindIsNoMetadata(e.body);
    TypeAndSequence(e);
    MessageIsPresent(e);
    ErrorIsPlain();
    NoMessageFault(c, I.RESPONSES, EventJson(e));
    InspectWritten(c, I.RESPONSES, Kind(e.body), EventJson(e));
    RejectedAsShaped(c, I.RESPONSES, Kind(e.body), e.sequence, EventJson(e));
  }

  lemma RejectedAsShaped(c: Codec, ev: I.Events, kind: string, sequence: nat, event: Value)
    requires ev.known(kind) && AsStr(Get(event, "type")) == Some(kind)
    requires AsU64(Get(event, "sequence_number")) == Some(sequence)
    requires I.ShapeFault(c, ev, kind, event).Some?
    ensures I.InspectValue(c, ev, Some(kind), event) == I.Reject(I.ShapeFault(c, ev, kind, event).value)
  {
  }

  /** What the gateway knows of the response after one more event. */
  function Note(c: Codec, seen: R.Identity, e: Event): R.Identity {
    R.Identity(
      if HasResponse(e.body) then Some(e.body.response.id)
      else if e.body.Error? && e.body.responseId.Some? then e.body.responseId
      else seen.responseId,
      if HasResponse(e.body) then V.Learn(c, seen.model, Some(e.body.response.model)) else seen.model,
      if e.sequence > seen.lastSequence then e.sequence else seen.lastSequence)
  }

  predicate NamesResponse(body: Body) {
    body.Error? && body.responseId.Some? ==> Client.GoodId(body.responseId.value)
  }

  lemma ObservesAs(cfg: V.Config, seen: R.Identity, event: I.Inspected,
                   id: Option<string>, model: Option<string>, responseId: Option<string>)
    requires AsStr(At(Get(event.value, "response"), "id")) == id
             && AsStr(At(Get(event.value, "response"), "model")) == model
    requires AsStr(Get(event.value, "response_id")) == responseId
    requires At(Get(event.value, "response"), "headers").None? && Get(event.value, "headers").None?
    requires event.sequence.Some?
    ensures V.Observe(cfg, seen, event)
         == R.Identity(V.Learn(cfg.codec, V.Learn(cfg.codec, seen.responseId, id), responseId),
                       V.Learn(cfg.codec, seen.model, model),
                       if event.sequence.value > seen.lastSequence then event.sequence.value else seen.lastSequence)
  {
  }

  lemma ResponseMembers(e: Event)
    ensures var response := Get(EventJson(e), "response");
            && AsStr(At(response, "id")) == (if HasResponse(e.body) then Some(e.body.response.id) else None)
            && AsStr(At(response, "model")) == (if HasResponse(e.body) then Some(e.body.response.model) else None)
            && At(response, "headers").None?
  {
    BodyField(e, "response");
    ResponseField(e.body);
    if HasResponse(e.body) {
      EnvelopeIdentity(e.body.response);
    }
  }

  lemma IdAndHeaderMembers(e: Event)
    ensures Get(EventJson(e), "headers").None?
    ensures AsStr(Get(EventJson(e), "response_id")) == if e.body.Error? then e.body.responseId else None
  {
    BodyField(e, "headers");
    BodyField(e, "response_id");
    IdAndHeaderFields(e.body);
  }

  lemma ObserveWritten(cfg: V.Config, seen: R.Identity, e: Event)
    requires Lawful(cfg.codec) && Presentable(e.body) && NamesResponse(e.body)
    ensures V.Observe(cfg, seen, I.Inspected(Kind(e.body), Some(e.sequence), EventJson(e))) == Note(cfg.codec, seen, e)
  {
    ResponseMembers(e);
    IdAndHeaderMembers(e);
    var id := if HasResponse(e.body) then Some(e.body.response.id) else None;
    var model := if HasResponse(e.body) then Some(e.body.response.model) else None;
    ObservesAs(cfg, seen, I.Inspected(Kind(e.body), Some(e.sequence), EventJson(e)), id, model,
               if e.body.Error? then e.body.responseId else None);
  }

  /** The event that takes the place of a synthesized error. */
  function Replacement(cfg: V.Config, seen: R.Identity): Bytes {
    V.FailureFrame(cfg, seen, seen.lastSequence, "invalid_request", cfg.failureText("invalid_request"), None)
  }

  lemma ErrorIsSanitized(cfg: V.Config, e: Event)
    requires e.body.Error?
    ensures V.Sanitize(cfg, EventJson(e))
         == V.StreamFailure("invalid_request", cfg.failureText("invalid_request"), None)
  {
    BodyField(e, "response");
    BodyField(e, "error");
    BodyField(e, "code");
    BodyField(e, "param");
    ResponseField(e.body);
    MessageField(e.body);
    PlainFailure(cfg, EventJson(e));
  }

  lemma PlainFailure(cfg: V.Config, value: Value)
    requires Get(value, "response").None? && Get(value, "error").None?
    requires AsStr(Get(value, "code")) == Some("invalid_request") && Get(value, "param").None?
    ensures V.Sanitize(cfg, value) == V.StreamFailure("invalid_request", cfg.failureText("invalid_request"), None)
  {
  }

  lemma JudgedAs(cfg: V.Config, seen: R.Identity, frame: Bytes, event: I.Inspected)
    requires I.InspectFrame(cfg.codec, cfg.events, frame) == I.Keep(event)
    ensures V.Judge(cfg, seen, frame) == V.JudgeKept(cfg, V.Observe(cfg, seen, event), event, frame)
  {
  }

  /** The gateway's judgement of one synthesized event. */
  function JudgementOf(cfg: V.Config, seen: R.Identity, e: Event): R.Verdict {
    if e.body.Error? && e.body.message == "" then R.Stop(seen, V.ProtocolFailure(cfg, seen, I.NoMessage))
    else
      var noted := Note(cfg.codec, seen, e);
      if e.body.Error? then R.Stop(noted, Replacement(cfg, noted))
      else if Ending(e.body) then R.Stop(noted, Wire(cfg.codec, e))
      else R.GoOn(noted, true)
  }

  lemma KeptVerdict(cfg: V.Config, noted: R.Identity, e: Event)
    requires cfg.events == I.RESPONSES
    ensures V.JudgeKept(cfg, noted, I.Inspected(Kind(e.body), Some(e.sequence), EventJson(e)), Wire(cfg.codec, e))
         == if e.body.Error? then R.Stop(noted, Replacement(cfg, noted))
            else if Ending(e.body) then R.Stop(noted, Wire(cfg.codec, e))
            else R.GoOn(noted, true)
  {
    KindIsFailing(e.body);
    KindIsTerminal(e.body);
    if e.body.Error? {
      ErrorIsSanitized(cfg, e);
    }
  }

  lemma WireJudged(cfg: V.Config, seen: R.Identity, e: Event)
    requires Lawful(cfg.codec) && cfg.events == I.RESPONSES && e.sequence <= U64_MAX
    requires NamesResponse(e.body) && (HasResponse(e.body) ==> Client.GoodId(e.body.response.id))
    ensures V.Judge(cfg, seen, Wire(cfg.codec, e)) == JudgementOf(cfg, seen, e)
  {
    if e.body.Error? && e.body.message == "" {
      BlankErrorRejected(cfg.codec, e);
    } else {
      WireReads(cfg.codec, e);
      ObserveWritten(cfg, seen, e);
      KeptVerdict(cfg, Note(cfg.codec, seen, e), e);
      JudgedAs(cfg, seen, Wire(cfg.codec, e), I.Inspected(Kind(e.body), Some(e.sequence), EventJson(e)));
    }
  }
}
