/** The session-protocol relay's two adapters and their shared table of pending
    requests. */
module MspRelay {
  import opened Prelude
  import opened Json
  import opened ProviderPaths
  import opened MspProviders
  import opened MspPaths

  const MAX_PENDING: nat := 4096

  /** Why the relay itself answers a request. */
  datatype Refusal = Unsupported(commandId: string) | NoCommand | BadId | Duplicate | Overloaded

  datatype Config = Config(codec: Codec, provider: PublicProvider, wording: Refusal -> string)

  /** Pending requests: the method by the id's key. */
  type Table = map<string, string>

  /** What becomes of a client frame: passed on, answered here, or dropped. */
  datatype ClientFrame = Forward(bytes: Bytes) | Reject(id: Value, refusal: Refusal) | Drop

  datatype Fault = BadJson | NotObject | BadEnvelope | BadProvider | UnknownId

  function StripSuffix(t: Bytes, c: char): Bytes {
    if t != "" && t[|t| - 1] == c then t[..|t| - 1] else t
  }

  function ParseFrame(c: Codec, frame: Bytes): Option<Value> { c.parse(StripSuffix(StripSuffix(frame, '\n'), '\r')) }

  function EncodeFrame(c: Codec, v: Value): Bytes { c.encode(v) + "\n" }

  lemma EncodedFrameParses(c: Codec, v: Value)
    requires Lawful(c)
    ensures ParseFrame(c, EncodeFrame(c, v)) == Some(v)
  {
    assert NoBreak(c.encode(v));
    assert StripSuffix(EncodeFrame(c, v), '\n') == c.encode(v);
  }

  /** The key of a request id; only strings, numbers and null have one. */
  function KeyOf(c: Codec, id: Value): Option<string> {
    if id.Str? || id.Num? || id.Fraction? || id.Null? then Some(c.encode(id)) else None
  }

  lemma KeysTellIdsApart(c: Codec, a: Value, b: Value)
    requires Lawful(c) && KeyOf(c, a).Some? && KeyOf(c, a) == KeyOf(c, b)
    ensures a == b
  {
    assert c.parse(c.encode(a)) == Some(a) && c.parse(c.encode(b)) == Some(b);
  }

  function MessageKey(c: Codec, v: Value): Option<string> {
    if Get(v, "id").Some? then KeyOf(c, Get(v, "id").value) else None
  }

  // ----- towards the host -----

  function CodeOf(refusal: Refusal): int {
    match refusal
    case Unsupported(_) => -32030
    case NoCommand => -32602
    case BadId => -32600
    case Duplicate => -32600
    case Overloaded => -32001
  }

  function DetailsOf(refusal: Refusal): Value {
    match refusal
    case Unsupported(commandId) =>
      Obj(map["kind" := Str("commandRejected"), "commandId" := Str(commandId),
              "reason" := Str("unsupported_provider"), "retryable" := Bool(false)])
    case NoCommand => Obj(map["kind" := Str("invalidParams")])
    case BadId => Obj(map["kind" := Str("invalidRequest")])
    case Duplicate => Obj(map["kind" := Str("invalidRequest")])
    case Overloaded => Obj(map["kind" := Str("overloaded"), "capacity" := Num(MAX_PENDING), "retryable" := Bool(true)])
  }

  /** The answer the client gets for a refused request. */
  function RefusalFrame(cfg: Config, id: Value, refusal: Refusal): Bytes {
    EncodeFrame(cfg.codec, Obj(map[
      "jsonrpc" := Str("2.0"), "id" := id,
      "error" := Obj(map["code" := Num(CodeOf(refusal)), "message" := Str(cfg.wording(refusal)),
                         "data" := DetailsOf(refusal)])]))
  }

  /** The provider field of a client message, where its method has one. */
  function ProviderField(name: string, v: Value): Option<Value> {
    if name == "session/start" then At(Get(v, "params"), "providerId")
    else if name == "session/setModel" then At(At(Get(v, "params"), "model"), "providerId")
    else None
  }

  function RefuseProvider(cfg: Config, v: Value): ClientFrame {
    var id := Get(v, "id");
    if id.None? then Drop
    else if KeyOf(cfg.codec, id.value).None? then Reject(Null, BadId)
    else
      var command := AsStr(At(Get(v, "params"), "commandId"));
      Reject(id.value, if command.Some? then Unsupported(command.value) else NoCommand)
  }

  /** Enters a request in the table unless its id is in flight or the table is
      full. */
  function Enter(cfg: Config, pending: Table, name: string, v: Value): (Table, Option<ClientFrame>) {
    match MessageKey(cfg.codec, v)
    case None => (pending, None)
    case Some(key) =>
      var id := Get(v, "id").value;
      if key in pending then (pending, Some(Reject(id, Duplicate)))
      else if |pending| >= MAX_PENDING then (pending, Some(Reject(id, Overloaded)))
      else (pending[key := name], None)
  }

  /** A command as the host gets it: verbatim unless it names the provider. */
  function Passed(cfg: Config, name: string, v: Value, frame: Bytes): Bytes {
    if AsStr(ProviderField(name, v)) == Some(NameOf(cfg.provider)) then
      EncodeFrame(cfg.codec, Apply(ClientShape(name), v, ToInternal(cfg.provider)))
    else frame
  }

  function AdaptCommand(cfg: Config, pending: Table, name: string, v: Value, frame: Bytes): (Table, ClientFrame) {
    var field := AsStr(ProviderField(name, v));
    if field.Some? && field.value != "" && field.value != NameOf(cfg.provider) then (pending, RefuseProvider(cfg, v))
    else
      var (table, refused) := Enter(cfg, pending, name, v);
      if refused.Some? then (table, refused.value)
      else (table, Forward(Passed(cfg, name, v, frame)))
  }

  function AdaptClient(cfg: Config, pending: Table, frame: Bytes): (Table, ClientFrame) {
    match ParseFrame(cfg.codec, frame)
    case None => (pending, Forward(frame))
    case Some(v) =>
      if !v.Obj? || MethodOf(v).None? then (pending, Forward(frame))
      else AdaptCommand(cfg, pending, MethodOf(v).value, v, frame)
  }

  // ----- towards the client -----

  function AdaptResponse(cfg: Config, pending: Table, key: string, v: Value,
                         frame: Bytes): Result<(Table, Bytes), Fault>
    requires v.Obj?
  {
    var result := Get(v, "result");
    if result.Some? == Get(v, "error").Some? then Err(BadEnvelope)
    else if key !in pending then (if result.Some? then Err(UnknownId) else Ok((pending, frame)))
    else if result.None? then Ok((pending - {key}, frame))
    else
      match AdaptAt(ResultShape(pending[key]), result.value, cfg.provider)
      case None => Err(BadProvider)
      case Some(w) =>
        Ok((pending - {key}, if w == result.value then frame else EncodeFrame(cfg.codec, Obj(v.fields["result" := w]))))
  }

  function AdaptServer(cfg: Config, pending: Table, frame: Bytes): Result<(Table, Bytes), Fault> {
    match ParseFrame(cfg.codec, frame)
    case None => Err(BadJson)
    case Some(v) =>
      if !v.Obj? then Err(NotObject)
      else if MethodOf(v).Some? then
        match AdaptAt(NotificationShape(MethodOf(v).value), v, cfg.provider)
        case None => Err(BadProvider)
        case Some(w) => Ok((pending, if w == v then frame else EncodeFrame(cfg.codec, w)))
      else if MessageKey(cfg.codec, v).Some? then AdaptResponse(cfg, pending, MessageKey(cfg.codec, v).value, v, frame)
      else if Get(v, "id").Some? || Get(v, "result").Some? || Get(v, "error").Some? then Err(BadEnvelope)
      else Ok((pending, frame))
  }

  // ----- what passes towards the host -----

  /** A tracked request: its id's key and its method. */
  datatype Ticket = Ticket(key: string, name: string)

  function TicketOf(c: Codec, frame: Bytes): Option<Ticket> {
    match ParseFrame(c, frame)
    case None => None
    case Some(v) =>
      if v.Obj? && MethodOf(v).Some? && MessageKey(c, v).Some?
      then Some(Ticket(MessageKey(c, v).value, MethodOf(v).value)) else None
  }

  /** Rewriting the provider leaves a message's id and method alone. */
  lemma ClientRewriteKeepsEnvelope(name: string, v: Value, f: Value -> Value)
    ensures var w := Apply(ClientShape(name), v, f);
            && w.Obj? == v.Obj? && Get(w, "id") == Get(v, "id") && MethodOf(w) == MethodOf(v)
  {
    assert "method"[0] != "params"[0];
  }

  /** The provider field lies at the schema's place for its method. */
  lemma FieldIsAtPlace(name: string, v: Value, f: Value -> Value)
    ensures ProviderField(name, Apply(ClientShape(name), v, f))
         == if ProviderField(name, v).Some? then Some(f(ProviderField(name, v).value)) else None
  {
    if name == "session/start" {
      StartPlace(v, f);
    } else if name == "session/setModel" {
      ModelPlace(v, f);
    }
  }

  lemma MemberPlace(v: Value, key: string, inner: Shape, f: Value -> Value)
    ensures Get(Apply(Members(map[key := inner]), v, f), key)
         == if Get(v, key).Some? then Some(Apply(inner, Get(v, key).value, f)) else None
  {
  }

  lemma StartPlace(v: Value, f: Value -> Value)
    ensures ProviderField("session/start", Apply(ClientShape("session/start"), v, f))
         == if ProviderField("session/start", v).Some? then Some(f(ProviderField("session/start", v).value)) else None
  {
    MemberPlace(v, "params", PROVIDER, f);
    if Get(v, "params").Some? {
      MemberPlace(Get(v, "params").value, "providerId", Here, f);
    }
  }

  lemma ModelPlace(v: Value, f: Value -> Value)
    ensures ProviderField("session/setModel", Apply(ClientShape("session/setModel"), v, f))
         == if ProviderField("session/setModel", v).Some? then Some(f(ProviderField("session/setModel", v).value))
            else None
  {
    var atModel := Members(map["model" := PROVIDER]);
    MemberPlace(v, "params", atModel, f);
    if Get(v, "params").Some? {
      MemberPlace(Get(v, "params").value, "model", PROVIDER, f);
      if At(Get(v, "params"), "model").Some? {
        MemberPlace(At(Get(v, "params"), "model").value, "providerId", Here, f);
      }
    }
  }

  lemma FieldIsCommandPlace(name: string, v: Value)
    ensures ProviderField(name, v) == CommandPlace(name, Some(v))
  {
  }

  /** A command that names the public provider reaches the host with the
      internal name there and nothing else changed; any other verbatim. */
  lemma PassedByPlace(cfg: Config, name: string, v: Value, frame: Bytes)
    requires Lawful(cfg.codec) && ParseFrame(cfg.codec, frame) == Some(v)
    ensures var b := Passed(cfg, name, v, frame);
            if AsStr(CommandPlace(name, Some(v))) == Some(PublicName(cfg.provider)) then
              exists w :: ParseFrame(cfg.codec, b) == Some(w)
                && CommandPlace(name, Some(w)) == Some(Str("meta")) && WipeCommand(name, w) == WipeCommand(name, v)
            else b == frame
  {
    FieldIsCommandPlace(name, v);
    if AsStr(ProviderField(name, v)) == Some(NameOf(cfg.provider)) {
      var f := ToInternal(cfg.provider);
      var w := Apply(ClientShape(name), v, f);
      EncodedFrameParses(cfg.codec, w);
      FieldIsAtPlace(name, v, f);
      FieldIsCommandPlace(name, w);
      RequestsSound(name);
      OnlyThePlaces(ClientShape(name), v, f);
      CommandWiped(name, v);
      CommandWiped(name, w);
    }
  }

  /** A name other than the public one at a command's provider field. */
  predicate Foreign(cfg: Config, name: string, v: Value) {
    var named := AsStr(CommandPlace(name, Some(v)));
    named.Some? && named.value != "" && named.value != PublicName(cfg.provider)
  }

  /** A request under an id in flight, or one too many. */
  predicate Refusable(cfg: Config, pending: Table, v: Value) {
    var key := MessageKey(cfg.codec, v);
    key.Some? && (key.value in pending || |pending| >= 4096)
  }

  /** A command with a foreign provider is never forwarded: it is refused under
      its own id, or under null when the id is of a forbidden type, or dropped
      when it has none. */
  lemma ForeignRefused(cfg: Config, pending: Table, frame: Bytes, v: Value, name: string)
    requires ParseFrame(cfg.codec, frame) == Some(v) && v.Obj? && AsStr(Get(v, "method")) == Some(name)
    requires Foreign(cfg, name, v)
    ensures var (table, out) := AdaptClient(cfg, pending, frame);
            var id, commandId := Get(v, "id"), AsStr(At(Get(v, "params"), "commandId"));
            && table == pending
            && out == (if id.None? then Drop
                       else if id.value.Bool? || id.value.Arr? || id.value.Obj? then Reject(Null, BadId)
                       else Reject(id.value, if commandId.Some? then Unsupported(commandId.value) else NoCommand))
  {
    FieldIsCommandPlace(name, v);
  }

  /** Any other command is forwarded, unless its id is in flight or the table is
      full; a request that is forwarded is entered under its own method. */
  lemma CommandForwarded(cfg: Config, pending: Table, frame: Bytes, v: Value, name: string)
    requires Lawful(cfg.codec) && ParseFrame(cfg.codec, frame) == Some(v) && v.Obj?
    requires AsStr(Get(v, "method")) == Some(name) && !Foreign(cfg, name, v)
    ensures var (table, out) := AdaptClient(cfg, pending, frame);
            var key := MessageKey(cfg.codec, v);
            if Refusable(cfg, pending, v) then
              table == pending
              && out == Reject(Get(v, "id").value, if key.value in pending then Duplicate else Overloaded)
            else
              && table == (if key.Some? then pending[key.value := name] else pending)
              && out.Forward?
              && if AsStr(CommandPlace(name, Some(v))) == Some(PublicName(cfg.provider)) then
                   exists w :: ParseFrame(cfg.codec, out.bytes) == Some(w)
                     && CommandPlace(name, Some(w)) == Some(Str("meta")) && WipeCommand(name, w) == WipeCommand(name, v)
                 else out.bytes == frame
  {
    FieldIsCommandPlace(name, v);
    PassedByPlace(cfg, name, v, frame);
  }

  /** What is no command is the host's business. */
  lemma OthersForwarded(cfg: Config, pending: Table, frame: Bytes)
    requires var v := ParseFrame(cfg.codec, frame); v.None? || AsStr(At(v, "method")).None?
    ensures AdaptClient(cfg, pending, frame) == (pending, Forward(frame))
  {
  }

  /** Strings, numbers and null have a key, and nothing else has. */
  lemma KeyedKinds(c: Codec, id: Value)
    ensures KeyOf(c, id).Some? <==> !id.Bool? && !id.Arr? && !id.Obj?
  {
  }

  lemma PassedTicket(cfg: Config, name: string, v: Value, frame: Bytes)
    requires Lawful(cfg.codec) && ParseFrame(cfg.codec, frame) == Some(v)
    ensures TicketOf(cfg.codec, Passed(cfg, name, v, frame)) == TicketOf(cfg.codec, frame)
  {
    EncodedFrameParses(cfg.codec, Apply(ClientShape(name), v, ToInternal(cfg.provider)));
    ClientRewriteKeepsEnvelope(name, v, ToInternal(cfg.provider));
  }

  lemma CommandEntersTicket(cfg: Config, pending: Table, name: string, v: Value, frame: Bytes)
    ensures var (table, out) := AdaptCommand(cfg, pending, name, v, frame);
            var key := MessageKey(cfg.codec, v);
            && (out.Forward? ==> out == Forward(Passed(cfg, name, v, frame)))
            && if out.Forward? && key.Some? then
                 key.value !in pending && |pending| < MAX_PENDING && table == pending[key.value := name]
               else table == pending
  {
  }

  /** What one client frame does to the table: a request that is forwarded, and
      only that, is entered under its own id and method, which the forwarded
      bytes still carry. */
  lemma ClientEntersTicket(cfg: Config, pending: Table, frame: Bytes)
    requires Lawful(cfg.codec)
    ensures var (table, out) := AdaptClient(cfg, pending, frame);
            var ticket := TicketOf(cfg.codec, frame);
            if out.Forward? && ticket.Some? then
              && ticket.value.key !in pending && |pending| < MAX_PENDING
              && table == pending[ticket.value.key := ticket.value.name]
              && TicketOf(cfg.codec, out.bytes) == ticket
            else table == pending && (out.Forward? ==> TicketOf(cfg.codec, out.bytes).None?)
  {
    var parsed := ParseFrame(cfg.codec, frame);
    if parsed.Some? && parsed.value.Obj? && MethodOf(parsed.value).Some? {
      var v, name := parsed.value, MethodOf(parsed.value).value;
      CommandEntersTicket(cfg, pending, name, v, frame);
      PassedTicket(cfg, name, v, frame);
    }
  }

  function ErrorAt(reply: Value, key: string): Option<Value> { At(Get(reply, "error"), key) }

  /** Whatever the relay answers itself is an error for the id it refuses, under
      the code and kind of its reason. */
  lemma RefusalNamesRequest(cfg: Config, id: Value, refusal: Refusal)
    requires Lawful(cfg.codec)
    ensures var reply := ParseFrame(cfg.codec, RefusalFrame(cfg, id, refusal));
            && reply.Some? && Get(reply.value, "jsonrpc") == Some(Str("2.0")) && Get(reply.value, "id") == Some(id)
            && Get(reply.value, "result").None?
            && ErrorAt(reply.value, "message") == Some(Str(cfg.wording(refusal)))
            && var code, data := ErrorAt(reply.value, "code"), ErrorAt(reply.value, "data");
               match refusal
               case Unsupported(commandId) =>
                 && code == Some(Num(-32030)) && At(data, "kind") == Some(Str("commandRejected"))
                 && At(data, "commandId") == Some(Str(commandId)) && At(data, "retryable") == Some(Bool(false))
                 && At(data, "reason") == Some(Str("unsupported_provider"))
               case NoCommand => code == Some(Num(-32602)) && At(data, "kind") == Some(Str("invalidParams"))
               case BadId => code == Some(Num(-32600)) && At(data, "kind") == Some(Str("invalidRequest"))
               case Duplicate => code == Some(Num(-32600)) && At(data, "kind") == Some(Str("invalidRequest"))
               case Overloaded =>
                 && code == Some(Num(-32001)) && At(data, "kind") == Some(Str("overloaded"))
                 && At(data, "capacity") == Some(Num(4096)) && At(data, "retryable") == Some(Bool(true))
  {
    var error := Obj(map["code" := Num(CodeOf(refusal)), "message" := Str(cfg.wording(refusal)),
                         "data" := DetailsOf(refusal)]);
    var reply := Obj(map["jsonrpc" := Str("2.0"), "id" := id, "error" := error]);
    EncodedFrameParses(cfg.codec, reply);
    assert Get(reply, "error") == Some(error) && Get(reply, "result").None?;
    ErrorMembers(error, CodeOf(refusal), cfg.wording(refusal), DetailsOf(refusal));
    DetailsMembers(refusal);
  }

  lemma ErrorMembers(error: Value, code: int, message: string, data: Value)
    requires error == Obj(map["code" := Num(code), "message" := Str(message), "data" := data])
    ensures Get(error, "code") == Some(Num(code)) && Get(error, "message") == Some(Str(message))
    ensures Get(error, "data") == Some(data)
  {
  }

  lemma DetailsMembers(refusal: Refusal)
    ensures var data := DetailsOf(refusal);
            match refusal
            case Unsupported(commandId) =>
              && Get(data, "kind") == Some(Str("commandRejected")) && Get(data, "commandId") == Some(Str(commandId))
              && Get(data, "reason") == Some(Str("unsupported_provider")) && Get(data, "retryable") == Some(Bool(false))
            case NoCommand => Get(data, "kind") == Some(Str("invalidParams"))
            case BadId => Get(data, "kind") == Some(Str("invalidRequest"))
            case Duplicate => Get(data, "kind") == Some(Str("invalidRequest"))
            case Overloaded =>
              && Get(data, "kind") == Some(Str("overloaded")) && Get(data, "capacity") == Some(Num(4096))
              && Get(data, "retryable") == Some(Bool(true))
  {
  }

  /** A request is refused under its own id, a message without an id never. */
  lemma RefusedUnderOwnId(cfg: Config, pending: Table, frame: Bytes, v: Value)
    requires ParseFrame(cfg.codec, frame) == Some(v) && AdaptClient(cfg, pending, frame).1.Reject?
    ensures var id := AdaptClient(cfg, pending, frame).1.id;
            Get(v, "id").Some?
            && id == (if KeyOf(cfg.codec, Get(v, "id").value).Some? then Get(v, "id").value else Null)
  {
  }

  // ----- what passes towards the client -----

  /** A notification is relayed if and only if its provider fields can be shown;
      the client then gets one with its providers shown and nothing else
      changed. */
  lemma NotificationShown(cfg: Config, pending: Table, frame: Bytes, v: Value, name: string)
    requires Lawful(cfg.codec) && ParseFrame(cfg.codec, frame) == Some(v) && v.Obj?
    requires AsStr(Get(v, "method")) == Some(name)
    ensures var r := AdaptServer(cfg, pending, frame);
            if NotificationHolds(name, Some(v), Tolerable(cfg.provider)) then
              r.Ok? && r.value.0 == pending
              && exists w :: ParseFrame(cfg.codec, r.value.1) == Some(w)
                   && NotificationHolds(name, Some(w), Visible(cfg.provider))
                   && WipeNotification(name, w) == WipeNotification(name, v)
            else r == Err(BadProvider)
  {
    var adapted := AdaptAt(NotificationShape(name), v, cfg.provider);
    NotificationByPlace(name, v, cfg.provider);
    if adapted.Some? {
      EncodedFrameParses(cfg.codec, adapted.value);
    }
  }

  /** The result of a tracked request is relayed if and only if the provider
      fields of its method can be shown; the client then gets one with its
      providers shown and nothing else changed, and the request leaves the
      table. */
  lemma ResultShown(cfg: Config, pending: Table, frame: Bytes, v: Value, key: string, result: Value)
    requires Lawful(cfg.codec) && ParseFrame(cfg.codec, frame) == Some(v) && v.Obj? && AsStr(Get(v, "method")).None?
    requires MessageKey(cfg.codec, v) == Some(key) && key in pending
    requires Get(v, "result") == Some(result) && Get(v, "error").None?
    ensures var r, name := AdaptServer(cfg, pending, frame), pending[key];
            if ResultHolds(name, Some(result), Tolerable(cfg.provider)) then
              r.Ok? && r.value.0 == pending - {key}
              && exists w :: ParseFrame(cfg.codec, r.value.1) == Some(Obj(v.fields["result" := w]))
                   && ResultHolds(name, Some(w), Visible(cfg.provider))
                      && WipeResult(name, w) == WipeResult(name, result)
                   && (Unnamed(name) ==> w == result)
            else r == Err(BadProvider)
  {
    ResultByPlace(pending[key], result, cfg.provider);
    TrackedResult(cfg, pending, frame, v, key, result);
  }

  /** What becomes of a tracked result, as its adapter says. */
  lemma TrackedResult(cfg: Config, pending: Table, frame: Bytes, v: Value, key: string, result: Value)
    requires Lawful(cfg.codec) && ParseFrame(cfg.codec, frame) == Some(v) && v.Obj? && MethodOf(v).None?
    requires MessageKey(cfg.codec, v) == Some(key) && key in pending
    requires Get(v, "result") == Some(result) && Get(v, "error").None?
    ensures var r, adapted :=
      AdaptServer(cfg, pending, frame), AdaptAt(ResultShape(pending[key]), result, cfg.provider);
            if adapted.None? then r == Err(BadProvider)
            else
              && r.Ok? && r.value.0 == pending - {key}
              && ParseFrame(cfg.codec, r.value.1) == Some(Obj(v.fields["result" := adapted.value]))
  {
    var adapted := AdaptAt(ResultShape(pending[key]), result, cfg.provider);
    if adapted.Some? {
      EncodedFrameParses(cfg.codec, Obj(v.fields["result" := adapted.value]));
      assert v.fields["result" := result] == v.fields;
    }
  }

  /** Which other frames of the host the relay accepts, all of them verbatim. */
  lemma OthersRelayed(cfg: Config, pending: Table, frame: Bytes)
    requires var v := ParseFrame(cfg.codec, frame);
             v.Some? && v.value.Obj? ==>
               AsStr(At(v, "method")).None? && !(MessageKey(cfg.codec, v.value).Some? && At(v, "result").Some?)
    ensures var r, v := AdaptServer(cfg, pending, frame), ParseFrame(cfg.codec, frame);
            if v.None? then r == Err(BadJson)
            else if !v.value.Obj? then r == Err(NotObject)
            else if MessageKey(cfg.codec, v.value).Some? then
              r == if At(v, "error").Some? then Ok((pending - {MessageKey(cfg.codec, v.value).value}, frame))
                   else Err(BadEnvelope)
            else if At(v, "id").None? && At(v, "result").None? && At(v, "error").None? then r == Ok((pending, frame))
            else r == Err(BadEnvelope)
  {
    var v := ParseFrame(cfg.codec, frame);
    if v.Some? && v.value.Obj? && MessageKey(cfg.codec, v.value).Some? {
      var key := MessageKey(cfg.codec, v.value).value;
      assert key !in pending ==> pending - {key} == pending;
    }
  }
}
