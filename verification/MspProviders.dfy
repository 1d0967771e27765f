/** Provider names at the Muse session protocol's provider fields: the internal
    one towards the host, the public one towards the client. */
module MspProviders {
  import opened Prelude
  import opened Json
  import opened ProviderPaths

  const INTERNAL: string := "meta"

  datatype PublicProvider = Codex | Zai

  function NameOf(provider: PublicProvider): (name: string)
    ensures name != "" && name != INTERNAL
  {
    match provider
    case Codex => "codex"
    case Zai => "zai"
  }

  const PROVIDER: Shape := Members(map["providerId" := Here])

  // ----- where the schema keeps provider names -----

  function ClientShape(name: string): Shape {
    if name == "session/start" then Members(map["params" := PROVIDER])
    else if name == "session/setModel" then Members(map["params" := Members(map["model" := PROVIDER])])
    else Nowhere
  }

  const SESSION: Shape := Members(map["session" := PROVIDER])

  const HISTORY: Shape :=
    Members(map["snapshot" := Members(map["state" := Members(map["effectiveModel" := PROVIDER])])])

  function NotificationShape(name: string): Shape {
    if name in {"session/started", "session/resumed", "session/forked"} then Members(map["params" := SESSION])
    else if name == "session/modelChanged" then Members(map["params" := PROVIDER])
    else Nowhere
  }

  const EVENT: Shape :=
    ByMethod({"session/started", "session/resumed", "session/forked"}, Members(map["params" := SESSION]),
             ByMethod({"session/modelChanged"}, Members(map["params" := PROVIDER]), Nowhere))

  function ResultShape(name: string): Shape {
    if name in {"session/start", "session/resume", "session/fork", "session/read"} then
      Members(map["session" := PROVIDER, "history" := HISTORY])
    else if name == "session/list" then Members(map["sessions" := Elements(PROVIDER)])
    else if name == "model/list" then Members(map["providerId" := Here, "models" := Elements(PROVIDER)])
    else if name == "view/page" then Members(map["events" := Elements(EVENT)])
    else Nowhere
  }

  // ----- the two directions -----

  function ToInternal(provider: PublicProvider): Value -> Value {
    x => if x == Str(NameOf(provider)) then Str(INTERNAL) else x
  }

  function ToPublic(provider: PublicProvider): Value -> Value {
    x => if x == Str(INTERNAL) then Str(NameOf(provider)) else x
  }

  /** What the host may show at a provider field. */
  function Acceptable(provider: PublicProvider): Value -> bool {
    x => x == Null || x == Str(INTERNAL) || x == Str(NameOf(provider))
  }

  function Shown(provider: PublicProvider): Value -> bool { x => x == Null || x == Str(NameOf(provider)) }

  /** `v` as the client may see it, or nothing when a provider field holds
      anything else. */
  function AdaptAt(shape: Shape, v: Value, provider: PublicProvider): Option<Value> {
    if Every(shape, v, Acceptable(provider)) then Some(Apply(shape, v, ToPublic(provider))) else None
  }

  lemma RecordsSound()
    ensures Sound(PROVIDER) && Sound(SESSION) && Sound(HISTORY)
  {
    assert Sound(PROVIDER);
    var model := Members(map["effectiveModel" := PROVIDER]);
    assert Sound(model);
    assert Sound(Members(map["state" := model]));
  }

  lemma NotificationsSound(name: string)
    ensures Sound(NotificationShape(name)) && KeepsMethod(NotificationShape(name))
  {
    RecordsSound();
    assert "method"[0] != "params"[0];
  }

  lemma EventSound()
    ensures Sound(EVENT)
  {
    NotificationsSound("session/started");
    NotificationsSound("session/modelChanged");
    assert EVENT.inner == NotificationShape("session/started");
    assert EVENT.otherwise.inner == NotificationShape("session/modelChanged");
    assert Sound(EVENT.otherwise);
  }

  lemma ResultsSound(name: string)
    ensures Sound(ResultShape(name))
  {
    RecordsSound();
    EventSound();
    assert Sound(Elements(PROVIDER)) && Sound(Elements(EVENT));
  }

  lemma RequestsSound(name: string)
    ensures Sound(ClientShape(name))
  {
    RecordsSound();
    assert Sound(Members(map["model" := PROVIDER]));
  }

  /** What the client sees is null, absent or the public name at every provider
      field, nothing else has changed, and adapting again changes nothing. */
  lemma AdaptedForClient(shape: Shape, v: Value, provider: PublicProvider)
    requires Sound(shape) && AdaptAt(shape, v, provider).Some?
    ensures var w := AdaptAt(shape, v, provider).value;
            && Every(shape, w, Shown(provider))
            && Blanked(shape, w) == Blanked(shape, v)
            && AdaptAt(shape, w, provider) == Some(w)
  {
    var f, w := ToPublic(provider), AdaptAt(shape, v, provider).value;
    EveryImplies(shape, v, Acceptable(provider), x => Shown(provider)(f(x)));
    EveryAfter(shape, v, f, Shown(provider));
    OnlyThePlaces(shape, v, f);
    EveryImplies(shape, w, Shown(provider), Acceptable(provider));
    EveryImplies(shape, w, Shown(provider), x => f(x) == x);
    ApplyIdentity(shape, w, f);
  }

  /** The server direction undoes the client's. */
  lemma AdaptInverts(shape: Shape, v: Value, provider: PublicProvider)
    requires Sound(shape) && Every(shape, v, Shown(provider))
    ensures AdaptAt(shape, Apply(shape, v, ToInternal(provider)), provider) == Some(v)
  {
    var there, back := ToInternal(provider), ToPublic(provider);
    EveryImplies(shape, v, Shown(provider), x => Acceptable(provider)(there(x)));
    EveryAfter(shape, v, there, Acceptable(provider));
    ApplyTwice(shape, v, there, back);
    var both: Value -> Value := x => back(there(x));
    EveryImplies(shape, v, Shown(provider), x => both(x) == x);
    ApplyIdentity(shape, v, both);
  }

  // ----- the adapters as written: member by member, array by array -----

  function AdaptProvider(x: Value, provider: PublicProvider): Option<Value> {
    if x == Null then Some(x)
    else if x == Str(INTERNAL) then Some(Str(NameOf(provider)))
    else if x == Str(NameOf(provider)) then Some(x)
    else None
  }

  /** `adapt` on the member `key` of an object that has it. */
  function InMember(v: Value, key: string, adapt: Value -> Option<Value>): Option<Value> {
    if v.Obj? && key in v.fields then
      match adapt(v.fields[key])
      case None => None
      case Some(w) => Some(Obj(v.fields[key := w]))
    else Some(v)
  }

  lemma InMemberIsShape(v: Value, key: string, adapt: Value -> Option<Value>, inner: Shape, provider: PublicProvider)
    requires forall x :: adapt(x) == AdaptAt(inner, x, provider)
    ensures InMember(v, key, adapt) == AdaptAt(Members(map[key := inner]), v, provider)
  {
    if v.Obj? && key in v.fields && adapt(v.fields[key]).Some? {
      assert Apply(Members(map[key := inner]), v, ToPublic(provider)).fields
             == v.fields[key := adapt(v.fields[key]).value];
    } else if v.Obj? && key !in v.fields {
      assert Apply(Members(map[key := inner]), v, ToPublic(provider)).fields == v.fields;
    }
  }

  function AdaptSession(session: Value, provider: PublicProvider): Option<Value> {
    InMember(session, "providerId", x => AdaptProvider(x, provider))
  }

  lemma SessionIsShape(session: Value, provider: PublicProvider)
    ensures AdaptSession(session, provider) == AdaptAt(PROVIDER, session, provider)
  {
    InMemberIsShape(session, "providerId", x => AdaptProvider(x, provider), Here, provider);
  }

  function AdaptHistory(history: Value, provider: PublicProvider): Option<Value> {
    InMember(history, "snapshot", snapshot =>
      InMember(snapshot, "state", state =>
        InMember(state, "effectiveModel", model => AdaptSession(model, provider))))
  }

  lemma HistoryIsShape(history: Value, provider: PublicProvider)
    ensures AdaptHistory(history, provider) == AdaptAt(HISTORY, history, provider)
  {
    var atModel: Value -> Option<Value> := model => AdaptSession(model, provider);
    forall x
      ensures atModel(x) == AdaptAt(PROVIDER, x, provider)
    {
      SessionIsShape(x, provider);
    }
    var model := Members(map["effectiveModel" := PROVIDER]);
    var atState: Value -> Option<Value> :=
      state => InMember(state, "effectiveModel", model => AdaptSession(model, provider));
    forall x
      ensures atState(x) == AdaptAt(model, x, provider)
    {
      InMemberIsShape(x, "effectiveModel", atModel, PROVIDER, provider);
    }
    var atSnapshot: Value -> Option<Value> := snapshot =>
      InMember(snapshot, "state", state => InMember(state, "effectiveModel", model => AdaptSession(model, provider)));
    forall x
      ensures atSnapshot(x) == AdaptAt(Members(map["state" := model]), x, provider)
    {
      InMemberIsShape(x, "state", atState, model, provider);
    }
    InMemberIsShape(history, "snapshot", atSnapshot, Members(map["state" := model]), provider);
  }

  function AdaptNotification(name: string, message: Value, provider: PublicProvider): Option<Value> {
    InMember(message, "params", params =>
      if name in {"session/started", "session/resumed", "session/forked"} then
        InMember(params, "session", session => AdaptSession(session, provider))
      else if name == "session/modelChanged" then AdaptSession(params, provider)
      else Some(params))
  }

  lemma NotificationIsShape(name: string, message: Value, provider: PublicProvider)
    ensures AdaptNotification(name, message, provider) == AdaptAt(NotificationShape(name), message, provider)
  {
    var atSession: Value -> Option<Value> := session => AdaptSession(session, provider);
    forall x
      ensures atSession(x) == AdaptAt(PROVIDER, x, provider)
    {
      SessionIsShape(x, provider);
    }
    if name in {"session/started", "session/resumed", "session/forked"} {
      var atParams: Value -> Option<Value> :=
        params => InMember(params, "session", session => AdaptSession(session, provider));
      forall x
        ensures atParams(x) == AdaptAt(SESSION, x, provider)
      {
        InMemberIsShape(x, "session", atSession, PROVIDER, provider);
      }
      InMemberIsShape(message, "params", atParams, SESSION, provider);
      assert AdaptNotification(name, message, provider) == InMember(message, "params", atParams);
    } else if name == "session/modelChanged" {
      InMemberIsShape(message, "params", atSession, PROVIDER, provider);
      assert AdaptNotification(name, message, provider) == InMember(message, "params", atSession);
    } else if message.Obj? && "params" in message.fields {
      assert message.fields["params" := message.fields["params"]] == message.fields;
    }
  }

  /** An element of a page of events is adapted as the notification it holds. */
  function AdaptEvent(event: Value, provider: PublicProvider): Option<Value> {
    if MethodOf(event).Some? then AdaptNotification(MethodOf(event).value, event, provider) else Some(event)
  }

  lemma AdaptChosen(shape: Shape, v: Value, provider: PublicProvider)
    requires shape.ByMethod?
    ensures AdaptAt(shape, v, provider) == AdaptAt(Chosen(shape, v), v, provider)
  {
  }

  lemma EventChooses(event: Value, provider: PublicProvider)
    ensures AdaptAt(EVENT, event, provider)
         == AdaptAt(if MethodOf(event).Some? then NotificationShape(MethodOf(event).value) else Nowhere,
                    event, provider)
  {
    AdaptChosen(EVENT, event, provider);
    AdaptChosen(EVENT.otherwise, event, provider);
  }

  lemma EventIsShape(event: Value, provider: PublicProvider)
    ensures AdaptEvent(event, provider) == AdaptAt(EVENT, event, provider)
  {
    EventChooses(event, provider);
    if MethodOf(event).Some? {
      NotificationIsShape(MethodOf(event).value, event, provider);
    }
  }

  // ----- results -----

  ghost predicate AdaptsAs(adapt: Value -> Option<Value>, shape: Shape, provider: PublicProvider) {
    forall x :: adapt(x) == AdaptAt(shape, x, provider)
  }

  /** Adapts an array element by element, in place; `changed` tells whether any
      element is now another value. */
  method AdaptElements(given: seq<Value>, adapt: Value -> Option<Value>, ghost shape: Shape,
                       ghost provider: PublicProvider)
    returns (r: Option<seq<Value>>, changed: bool)
    requires AdaptsAs(adapt, shape, provider)
    ensures r.None? ==> AdaptAt(Elements(shape), Arr(given), provider).None?
    ensures r.Some? ==>
              AdaptAt(Elements(shape), Arr(given), provider) == Some(Arr(r.value)) && (changed <==> r.value != given)
  {
    var items := given;
    changed := false;
    for i := 0 to |items|
      invariant |items| == |given| && items[i..] == given[i..]
      invariant changed <==> exists j :: 0 <= j < i && items[j] != given[j]
      invariant forall j :: 0 <= j < i ==> adapt(given[j]) == Some(items[j])
    {
      assert items[i] == items[i..][0] == given[i];
      var adapted := adapt(items[i]);
      if adapted.None? {
        return None, false;
      }
      if adapted.value != items[i] {
        changed := true;
      }
      items := items[i := adapted.value];
      assert items[i + 1..] == given[i + 1..];
    }
    assert Apply(Elements(shape), Arr(given), ToPublic(provider)).items == items;
    return Some(items), changed;
  }

  lemma EveryTwo(v: Value, first: string, shapeA: Shape, second: string, shapeB: Shape, p: Value -> bool)
    requires first != second && v.Obj?
    ensures Every(Members(map[first := shapeA, second := shapeB]), v, p)
       <==> (first in v.fields ==> Every(shapeA, v.fields[first], p))
            && (second in v.fields ==> Every(shapeB, v.fields[second], p))
  {
    var members := map[first := shapeA, second := shapeB];
    assert members[first] == shapeA && members[second] == shapeB;
  }

  lemma ApplyTwo(v: Value, first: string, shapeA: Shape, second: string, shapeB: Shape, f: Value -> Value)
    requires first != second && v.Obj?
    ensures Apply(Members(map[first := shapeA, second := shapeB]), v, f)
         == Apply(Members(map[second := shapeB]), Apply(Members(map[first := shapeA]), v, f), f)
  {
    var members := map[first := shapeA, second := shapeB];
    var both, half := Apply(Members(members), v, f), Apply(Members(map[first := shapeA]), v, f);
    var whole := Apply(Members(map[second := shapeB]), half, f);
    forall key | key in v.fields
      ensures both.fields[key] == whole.fields[key]
    {
      ApplyAt(members, v, key, f);
      ApplyAt(map[first := shapeA], v, key, f);
      ApplyAt(map[second := shapeB], half, key, f);
    }
    assert both.fields == whole.fields;
  }

  lemma ApplyAt(members: map<string, Shape>, v: Value, key: string, f: Value -> Value)
    requires v.Obj? && key in v.fields
    ensures var w := Apply(Members(members), v, f);
            && w.Obj? && w.fields.Keys == v.fields.Keys
            && w.fields[key] == if key in members then Apply(members[key], v.fields[key], f) else v.fields[key]
  {
  }

  lemma TwoPlaces(v: Value, first: string, shapeA: Shape, second: string, shapeB: Shape, provider: PublicProvider)
    requires first != second && v.Obj?
    ensures var shape := Members(map[first := shapeA, second := shapeB]);
            var a, b := Members(map[first := shapeA]), Members(map[second := shapeB]);
            && (AdaptAt(shape, v, provider).Some? <==> AdaptAt(a, v, provider).Some? && AdaptAt(b, v, provider).Some?)
            && Apply(shape, v, ToPublic(provider)) == Apply(b, Apply(a, v, ToPublic(provider)), ToPublic(provider))
  {
    EveryTwo(v, first, shapeA, second, shapeB, Acceptable(provider));
    ApplyTwo(v, first, shapeA, second, shapeB, ToPublic(provider));
  }

  lemma SecondPlace(v: Value, w: Value, second: string, shapeB: Shape, provider: PublicProvider)
    requires v.Obj? && w.Obj? && Get(w, second) == Get(v, second)
    ensures AdaptAt(Members(map[second := shapeB]), v, provider).Some?
            <==> AdaptAt(Members(map[second := shapeB]), w, provider).Some?
  {
  }

  lemma TwoMembers(v: Value, first: string, a: Value -> Option<Value>, shapeA: Shape,
                   second: string, b: Value -> Option<Value>, shapeB: Shape, provider: PublicProvider)
    requires first != second && AdaptsAs(a, shapeA, provider) && AdaptsAs(b, shapeB, provider)
    ensures var half := InMember(v, first, a);
            AdaptAt(Members(map[first := shapeA, second := shapeB]), v, provider)
            == if half.None? then None else InMember(half.value, second, b)
  {
    InMemberIsShape(v, first, a, shapeA, provider);
    var half := InMember(v, first, a);
    if v.Obj? && half.Some? {
      InMemberIsShape(half.value, second, b, shapeB, provider);
      SecondPlace(v, half.value, second, shapeB, provider);
    }
    if v.Obj? {
      TwoPlaces(v, first, shapeA, second, shapeB, provider);
    }
  }

  /** Adapts the elements of the array member `key`, if there is one. */
  method AdaptList(v: Value, key: string, adapt: Value -> Option<Value>, ghost shape: Shape,
                   ghost provider: PublicProvider)
    returns (r: Option<Value>, changed: bool)
    requires AdaptsAs(adapt, shape, provider)
    ensures r == InMember(v, key, x => AdaptAt(Elements(shape), x, provider))
    ensures r.Some? ==> (changed <==> r.value != v)
  {
    if !v.Obj? || key !in v.fields {
      return Some(v), false;
    }
    var list := v.fields[key];
    if !list.Arr? {
      assert v.fields[key := list] == v.fields;
      return Some(v), false;
    }
    var items, touched := AdaptElements(list.items, adapt, shape, provider);
    if items.None? {
      return None, false;
    }
    assert touched ==> v.fields[key := Arr(items.value)][key] != v.fields[key];
    assert !touched ==> v.fields[key := Arr(items.value)] == v.fields;
    return Some(Obj(v.fields[key := Arr(items.value)])), touched;
  }

  lemma SessionResult(result: Value, provider: PublicProvider)
    ensures var half := InMember(result, "session", x => AdaptSession(x, provider));
            AdaptAt(Members(map["session" := PROVIDER, "history" := HISTORY]), result, provider)
            == if half.None? then None else InMember(half.value, "history", x => AdaptHistory(x, provider))
  {
    var a: Value -> Option<Value> := x => AdaptSession(x, provider);
    var b: Value -> Option<Value> := x => AdaptHistory(x, provider);
    forall x
      ensures a(x) == AdaptAt(PROVIDER, x, provider) && b(x) == AdaptAt(HISTORY, x, provider)
    {
      SessionIsShape(x, provider);
      HistoryIsShape(x, provider);
    }
    TwoMembers(result, "session", a, PROVIDER, "history", b, HISTORY, provider);
  }

  lemma ModelsResult(result: Value, provider: PublicProvider)
    ensures var half := InMember(result, "providerId", x => AdaptProvider(x, provider));
            AdaptAt(Members(map["providerId" := Here, "models" := Elements(PROVIDER)]), result, provider)
            == if half.None? then None
               else InMember(half.value, "models", x => AdaptAt(Elements(PROVIDER), x, provider))
  {
    TwoMembers(result, "providerId", x => AdaptProvider(x, provider), Here,
               "models", x => AdaptAt(Elements(PROVIDER), x, provider), Elements(PROVIDER), provider);
  }

  lemma ListResult(result: Value, key: string, shape: Shape, provider: PublicProvider)
    ensures InMember(result, key, x => AdaptAt(Elements(shape), x, provider))
         == AdaptAt(Members(map[key := Elements(shape)]), result, provider)
  {
    InMemberIsShape(result, key, x => AdaptAt(Elements(shape), x, provider), Elements(shape), provider);
  }

  lemma SessionsAdaptAs(provider: PublicProvider)
    ensures AdaptsAs(x => AdaptSession(x, provider), PROVIDER, provider)
  {
    forall x
      ensures AdaptSession(x, provider) == AdaptAt(PROVIDER, x, provider)
    {
      SessionIsShape(x, provider);
    }
  }

  lemma EventsAdaptAs(provider: PublicProvider)
    ensures AdaptsAs(x => AdaptEvent(x, provider), EVENT, provider)
  {
    forall x
      ensures AdaptEvent(x, provider) == AdaptAt(EVENT, x, provider)
    {
      EventIsShape(x, provider);
    }
  }

  method AdaptServerResult(name: string, result: Value, provider: PublicProvider)
    returns (r: Option<Value>, changed: bool)
    ensures r == AdaptAt(ResultShape(name), result, provider)
    ensures r.Some? ==> (changed <==> r.value != result)
  {
    if name in {"session/start", "session/resume", "session/fork", "session/read"} {
      SessionResult(result, provider);
      r := InMember(result, "session", x => AdaptSession(x, provider));
      if r.Some? {
        r := InMember(r.value, "history", x => AdaptHistory(x, provider));
      }
      changed := r != Some(result);
    } else if name == "session/list" {
      SessionsAdaptAs(provider);
      ListResult(result, "sessions", PROVIDER, provider);
      r, changed := AdaptList(result, "sessions", x => AdaptSession(x, provider), PROVIDER, provider);
    } else if name == "model/list" {
      SessionsAdaptAs(provider);
      ModelsResult(result, provider);
      r := InMember(result, "providerId", x => AdaptProvider(x, provider));
      if r.Some? {
        r, changed := AdaptList(r.value, "models", x => AdaptSession(x, provider), PROVIDER, provider);
      }
      changed := r != Some(result);
    } else if name == "view/page" {
      EventsAdaptAs(provider);
      ListResult(result, "events", EVENT, provider);
      r, changed := AdaptList(result, "events", x => AdaptEvent(x, provider), EVENT, provider);
    } else {
      r, changed := Some(result), false;
    }
  }
}
