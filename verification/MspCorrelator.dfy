/** The pending-request table as the relay's threads use it: each frame is
    adapted while the table is updated in place. */
module MspCorrelator {
  import opened Prelude
  import opened Json
  import opened ProviderPaths
  import opened MspProviders
  import opened MspRelay

  class Correlator {
    const cfg: Config
    var requests: Table

    constructor (cfg: Config)
      ensures this.cfg == cfg && requests == map[]
    {
      this.cfg := cfg;
      requests := map[];
    }

    method AdaptClientFrame(frame: Bytes) returns (out: ClientFrame)
      modifies this`requests
      ensures (requests, out) == AdaptClient(cfg, old(requests), frame)
    {
      var parsed := ParseFrame(cfg.codec, frame);
      if parsed.None? || !parsed.value.Obj? || MethodOf(parsed.value).None? {
        return Forward(frame);
      }
      var value, name := parsed.value, MethodOf(parsed.value).value;
      var field := AsStr(ProviderField(name, value));
      if field.Some? && field.value != NameOf(cfg.provider) && field.value != "" {
        return RefuseProvider(cfg, value);
      }
      var key := MessageKey(cfg.codec, value);
      if key.Some? {
        if key.value in requests {
          return Reject(Get(value, "id").value, Duplicate);
        }
        if |requests| >= MAX_PENDING {
          return Reject(Get(value, "id").value, Overloaded);
        }
        requests := requests[key.value := name];
      }
      return Forward(Passed(cfg, name, value, frame));
    }

    method AdaptServerFrame(frame: Bytes) returns (r: Result<Bytes, Fault>)
      modifies this`requests
      ensures match AdaptServer(cfg, old(requests), frame)
              case Err(fault) => r == Err(fault)
              case Ok((table, bytes)) => r == Ok(bytes) && requests == table
    {
      var parsed := ParseFrame(cfg.codec, frame);
      if parsed.None? {
        return Err(BadJson);
      }
      var value := parsed.value;
      if !value.Obj? {
        return Err(NotObject);
      }
      var key := MessageKey(cfg.codec, value);
      if MethodOf(value).Some? {
        var name := MethodOf(value).value;
        NotificationIsShape(name, value, cfg.provider);
        var adapted := AdaptNotification(name, value, cfg.provider);
        if adapted.None? {
          return Err(BadProvider);
        }
        return Ok(if adapted.value == value then frame else EncodeFrame(cfg.codec, adapted.value));
      } else if key.Some? {
        r := AdaptResponseFrame(key.value, value, frame);
      } else if Get(value, "id").Some? || Get(value, "result").Some? || Get(value, "error").Some? {
        return Err(BadEnvelope);
      } else {
        return Ok(frame);
      }
    }

    method AdaptResponseFrame(key: string, value: Value, frame: Bytes) returns (r: Result<Bytes, Fault>)
      requires value.Obj?
      modifies this`requests
      ensures match AdaptResponse(cfg, old(requests), key, value, frame)
              case Err(fault) => r == Err(fault)
              case Ok((table, bytes)) => r == Ok(bytes) && requests == table
    {
      var result := Get(value, "result");
      if result.Some? == Get(value, "error").Some? {
        return Err(BadEnvelope);
      }
      if key !in requests {
        return if result.Some? then Err(UnknownId) else Ok(frame);
      }
      var name := requests[key];
      requests := requests - {key};
      if result.None? {
        return Ok(frame);
      }
      var adapted, changed := AdaptServerResult(name, result.value, cfg.provider);
      if adapted.None? {
        return Err(BadProvider);
      }
      return Ok(if changed then EncodeFrame(cfg.codec, Obj(value.fields["result" := adapted.value])) else frame);
    }
  }
}
