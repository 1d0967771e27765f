/** The session protocol's provider fields, place by place: what the adapters do
    at each, and that they do nothing elsewhere. */
module MspPaths {
  import opened Prelude
  import opened Json
  import opened ProviderPaths
  import opened MspProviders

  function PublicName(provider: PublicProvider): string { if provider == Codex then "codex" else "zai" }

  /** What a client may see at a provider field, and what a host may show. */
  function Visible(provider: PublicProvider): Value -> bool { x => x == Null || x == Str(PublicName(provider)) }

  function Tolerable(provider: PublicProvider): Value -> bool {
    x => x == Null || x == Str("meta") || x == Str(PublicName(provider))
  }

  predicate Holds(place: Option<Value>, q: Value -> bool) { place.Some? ==> q(place.value) }

  // ----- the places -----

  function SessionPlace(v: Option<Value>): Option<Value> { At(At(v, "session"), "providerId") }

  function HistoryPlace(v: Option<Value>): Option<Value> {
    At(At(At(At(At(v, "history"), "snapshot"), "state"), "effectiveModel"), "providerId")
  }

  /** A notification's provider field is its session's, or its new model's. */
  predicate NotificationHolds(name: string, v: Option<Value>, q: Value -> bool) {
    && (name == "session/started" || name == "session/resumed" || name == "session/forked" ==>
          Holds(SessionPlace(At(v, "params")), q))
    && (name == "session/modelChanged" ==> Holds(At(At(v, "params"), "providerId"), q))
  }

  predicate EventHolds(event: Option<Value>, q: Value -> bool) {
    AsStr(At(event, "method")).Some? ==> NotificationHolds(AsStr(At(event, "method")).value, event, q)
  }

  /** The provider fields of a method's result. */
  ghost predicate ResultHolds(name: string, v: Option<Value>, q: Value -> bool) {
    && (name == "session/start" || name == "session/resume" || name == "session/fork" || name == "session/read" ==>
          Holds(SessionPlace(v), q) && Holds(HistoryPlace(v), q))
    && (name == "session/list" ==> forall i: nat :: Holds(At(ItemAt(At(v, "sessions"), i), "providerId"), q))
    && (name == "model/list" ==>
          Holds(At(v, "providerId"), q) && forall i: nat :: Holds(At(ItemAt(At(v, "models"), i), "providerId"), q))
    && (name == "view/page" ==> forall i: nat :: EventHolds(ItemAt(At(v, "events"), i), q))
  }

  /** Methods whose results have no provider field. */
  predicate Unnamed(name: string) {
    && name != "session/start" && name != "session/resume" && name != "session/fork" && name != "session/read"
    && name != "session/list" && name != "model/list" && name != "view/page"
  }

  // ----- places and shapes -----

  lemma MemberHolds(v: Option<Value>, key: string, inner: Shape, q: Value -> bool)
    ensures (v.Some? ==> Every(Members(map[key := inner]), v.value, q))
       <==> (At(v, key).Some? ==> Every(inner, At(v, key).value, q))
  {
    var members := map[key := inner];
    assert members[key] == inner;
  }

  lemma ProviderHolds(v: Option<Value>, q: Value -> bool)
    ensures (v.Some? ==> Every(PROVIDER, v.value, q)) <==> Holds(At(v, "providerId"), q)
  {
    MemberHolds(v, "providerId", Here, q);
  }

  lemma SessionHolds(v: Option<Value>, q: Value -> bool)
    ensures (v.Some? ==> Every(SESSION, v.value, q)) <==> Holds(SessionPlace(v), q)
  {
    MemberHolds(v, "session", PROVIDER, q);
    ProviderHolds(At(v, "session"), q);
  }

  lemma HistoryHolds(history: Option<Value>, q: Value -> bool)
    ensures (history.Some? ==> Every(HISTORY, history.value, q))
       <==> Holds(At(At(At(At(history, "snapshot"), "state"), "effectiveModel"), "providerId"), q)
  {
    var atModel := Members(map["effectiveModel" := PROVIDER]);
    var atState := Members(map["state" := atModel]);
    MemberHolds(history, "snapshot", atState, q);
    MemberHolds(At(history, "snapshot"), "state", atModel, q);
    MemberHolds(At(At(history, "snapshot"), "state"), "effectiveModel", PROVIDER, q);
    ProviderHolds(At(At(At(history, "snapshot"), "state"), "effectiveModel"), q);
  }

  lemma NotificationPlaces(name: string, v: Option<Value>, q: Value -> bool)
    ensures (v.Some? ==> Every(NotificationShape(name), v.value, q)) <==> NotificationHolds(name, v, q)
  {
    MemberHolds(v, "params", SESSION, q);
    SessionHolds(At(v, "params"), q);
    MemberHolds(v, "params", PROVIDER, q);
    ProviderHolds(At(v, "params"), q);
  }

  lemma EventPlaces(v: Value, q: Value -> bool)
    ensures Every(EVENT, v, q) <==> EventHolds(Some(v), q)
  {
    var name := MethodOf(v);
    if name.Some? {
      NotificationPlaces(name.value, Some(v), q);
    }
    EventChosen(v, q);
  }

  lemma EventChosen(v: Value, q: Value -> bool)
    ensures Every(EVENT, v, q)
       <==> Every(if MethodOf(v).Some? then NotificationShape(MethodOf(v).value) else Nowhere, v, q)
  {
  }

  lemma ListPlaces(v: Option<Value>, key: string, inner: Shape, q: Value -> bool)
    ensures (v.Some? ==> Every(Members(map[key := Elements(inner)]), v.value, q))
       <==> forall i: nat :: ItemAt(At(v, key), i).Some? ==> Every(inner, ItemAt(At(v, key), i).value, q)
  {
    MemberHolds(v, key, Elements(inner), q);
    var list := At(v, key);
    if list.Some? && list.value.Arr? {
      assert forall i: nat :: i < |list.value.items| ==> ItemAt(list, i) == Some(list.value.items[i]);
    }
  }

  lemma ProviderListPlaces(v: Option<Value>, key: string, q: Value -> bool)
    ensures (v.Some? ==> Every(Members(map[key := Elements(PROVIDER)]), v.value, q))
       <==> forall i: nat :: Holds(At(ItemAt(At(v, key), i), "providerId"), q)
  {
    ListPlaces(v, key, PROVIDER, q);
    forall i: nat
      ensures (ItemAt(At(v, key), i).Some? ==> Every(PROVIDER, ItemAt(At(v, key), i).value, q))
         <==> Holds(At(ItemAt(At(v, key), i), "providerId"), q)
    {
      ProviderHolds(ItemAt(At(v, key), i), q);
    }
  }

  lemma EventListPlaces(v: Option<Value>, q: Value -> bool)
    ensures (v.Some? ==> Every(Members(map["events" := Elements(EVENT)]), v.value, q))
       <==> forall i: nat :: EventHolds(ItemAt(At(v, "events"), i), q)
  {
    ListPlaces(v, "events", EVENT, q);
    forall i: nat
      ensures (ItemAt(At(v, "events"), i).Some? ==> Every(EVENT, ItemAt(At(v, "events"), i).value, q))
         <==> EventHolds(ItemAt(At(v, "events"), i), q)
    {
      var event := ItemAt(At(v, "events"), i);
      if event.Some? {
        EventPlaces(event.value, q);
      }
    }
  }

  lemma TwoHold(v: Value, first: string, shapeA: Shape, second: string, shapeB: Shape, q: Value -> bool)
    requires first != second
    ensures Every(Members(map[first := shapeA, second := shapeB]), v, q)
       <==> Every(Members(map[first := shapeA]), v, q) && Every(Members(map[second := shapeB]), v, q)
  {
    if v.Obj? {
      EveryTwo(v, first, shapeA, second, shapeB, q);
      MemberHolds(Some(v), first, shapeA, q);
      MemberHolds(Some(v), second, shapeB, q);
    }
  }

  lemma SessionResultPlaces(v: Value, q: Value -> bool)
    ensures Every(Members(map["session" := PROVIDER, "history" := HISTORY]), v, q)
       <==> Holds(SessionPlace(Some(v)), q) && Holds(HistoryPlace(Some(v)), q)
  {
    TwoHold(v, "session", PROVIDER, "history", HISTORY, q);
    SessionHolds(Some(v), q);
    MemberHolds(Some(v), "history", HISTORY, q);
    HistoryHolds(Get(v, "history"), q);
  }

  lemma ModelsResultPlaces(v: Value, q: Value -> bool)
    ensures Every(Members(map["providerId" := Here, "models" := Elements(PROVIDER)]), v, q)
       <==> Holds(Get(v, "providerId"), q)
            && forall i: nat :: Holds(At(ItemAt(At(Some(v), "models"), i), "providerId"), q)
  {
    TwoHold(v, "providerId", Here, "models", Elements(PROVIDER), q);
    ProviderHolds(Some(v), q);
    ProviderListPlaces(Some(v), "models", q);
  }

  lemma ResultPlaces(name: string, v: Value, q: Value -> bool)
    ensures Every(ResultShape(name), v, q) <==> ResultHolds(name, Some(v), q)
  {
    if name == "session/list" {
      ProviderListPlaces(Some(v), "sessions", q);
    } else if name == "model/list" {
      ModelsResultPlaces(v, q);
    } else if name == "view/page" {
      EventListPlaces(Some(v), q);
    } else if !Unnamed(name) {
      SessionResultPlaces(v, q);
    }
  }

  // ----- everything but the places -----

  function WipeMember(v: Value, key: string, wipe: Value -> Value): Value {
    if v.Obj? && key in v.fields then Obj(v.fields[key := wipe(v.fields[key])]) else v
  }

  function WipeItems(v: Value, wipe: Value -> Value): Value {
    if v.Arr? then Arr(seq(|v.items|, i requires 0 <= i < |v.items| => wipe(v.items[i]))) else v
  }

  function WipeProvider(v: Value): Value { WipeMember(v, "providerId", x => Null) }

  function WipeHistory(v: Value): Value {
    WipeMember(v, "snapshot", x => WipeMember(x, "state", y => WipeMember(y, "effectiveModel", z => WipeProvider(z))))
  }

  function WipeNotification(name: string, v: Value): Value {
    if name == "session/started" || name == "session/resumed" || name == "session/forked" then
      WipeMember(v, "params", x => WipeMember(x, "session", y => WipeProvider(y)))
    else if name == "session/modelChanged" then WipeMember(v, "params", x => WipeProvider(x))
    else v
  }

  function WipeEvent(v: Value): Value {
    if AsStr(Get(v, "method")).Some? then WipeNotification(AsStr(Get(v, "method")).value, v) else v
  }

  /** A result without its provider names. */
  function WipeResult(name: string, v: Value): Value {
    if name == "session/start" || name == "session/resume" || name == "session/fork" || name == "session/read" then
      WipeMember(WipeMember(v, "session", x => WipeProvider(x)), "history", x => WipeHistory(x))
    else if name == "session/list" then WipeMember(v, "sessions", x => WipeItems(x, y => WipeProvider(y)))
    else if name == "model/list" then WipeMember(WipeProvider(v), "models", x => WipeItems(x, y => WipeProvider(y)))
    else if name == "view/page" then WipeMember(v, "events", x => WipeItems(x, y => WipeEvent(y)))
    else v
  }

  ghost predicate Wipes(wipe: Value -> Value, shape: Shape) { forall x :: wipe(x) == Blanked(shape, x) }

  lemma MemberWiped(v: Value, key: string, wipe: Value -> Value, inner: Shape)
    requires Wipes(wipe, inner)
    ensures Blanked(Members(map[key := inner]), v) == WipeMember(v, key, wipe)
  {
    var f: Value -> Value := x => Null;
    if v.Obj? {
      var w := Apply(Members(map[key := inner]), v, f);
      forall k | k in v.fields
        ensures w.fields[k] == if k == key then wipe(v.fields[k]) else v.fields[k]
      {
        ApplyAt(map[key := inner], v, k, f);
        assert k == key ==> wipe(v.fields[k]) == Blanked(inner, v.fields[k]);
      }
      assert w.fields == if key in v.fields then v.fields[key := wipe(v.fields[key])] else v.fields;
    }
  }

  lemma ItemsWiped(wipe: Value -> Value, inner: Shape)
    requires Wipes(wipe, inner)
    ensures Wipes(v => WipeItems(v, wipe), Elements(inner))
  {
    forall v: Value
      ensures WipeItems(v, wipe) == Blanked(Elements(inner), v)
    {
      if v.Arr? {
        assert WipeItems(v, wipe).items == Blanked(Elements(inner), v).items;
      }
    }
  }

  lemma MembersWiped(key: string, wipe: Value -> Value, inner: Shape)
    requires Wipes(wipe, inner)
    ensures Wipes(v => WipeMember(v, key, wipe), Members(map[key := inner]))
  {
    forall v: Value
      ensures WipeMember(v, key, wipe) == Blanked(Members(map[key := inner]), v)
    {
      MemberWiped(v, key, wipe, inner);
    }
  }

  lemma ProvidersWiped()
    ensures Wipes(v => WipeProvider(v), PROVIDER)
  {
    forall v: Value
      ensures WipeProvider(v) == Blanked(PROVIDER, v)
    {
      MemberWiped(v, "providerId", x => Null, Here);
    }
  }

  lemma HistoriesWiped()
    ensures Wipes(v => WipeHistory(v), HISTORY)
  {
    var atModel := Members(map["effectiveModel" := PROVIDER]);
    var model: Value -> Value := z => WipeProvider(z);
    var state: Value -> Value := y => WipeMember(y, "effectiveModel", z => WipeProvider(z));
    var snapshot: Value -> Value :=
      x => WipeMember(x, "state", y => WipeMember(y, "effectiveModel", z => WipeProvider(z)));
    ProvidersWiped();
    forall y: Value
      ensures state(y) == Blanked(atModel, y)
    {
      MemberWiped(y, "effectiveModel", model, PROVIDER);
    }
    forall x: Value
      ensures snapshot(x) == Blanked(Members(map["state" := atModel]), x)
    {
      MemberWiped(x, "state", state, atModel);
    }
    forall v: Value
      ensures WipeHistory(v) == Blanked(HISTORY, v)
    {
      MemberWiped(v, "snapshot", snapshot, Members(map["state" := atModel]));
    }
  }

  lemma NotificationWiped(name: string, v: Value)
    ensures WipeNotification(name, v) == Blanked(NotificationShape(name), v)
  {
    ProvidersWiped();
    var provider: Value -> Value := x => WipeProvider(x);
    var session: Value -> Value := x => WipeMember(x, "session", y => WipeProvider(y));
    forall x: Value
      ensures session(x) == Blanked(SESSION, x)
    {
      MemberWiped(x, "session", provider, PROVIDER);
    }
    MemberWiped(v, "params", session, SESSION);
    MemberWiped(v, "params", provider, PROVIDER);
  }

  lemma EventsWiped()
    ensures Wipes(v => WipeEvent(v), EVENT)
  {
    forall v: Value
      ensures WipeEvent(v) == Blanked(EVENT, v)
    {
      if MethodOf(v).Some? {
        NotificationWiped(MethodOf(v).value, v);
      }
      EventBlanked(v);
    }
  }

  lemma EventBlanked(v: Value)
    ensures Blanked(EVENT, v)
         == Blanked(if MethodOf(v).Some? then NotificationShape(MethodOf(v).value) else Nowhere, v)
  {
    ChosenBlanked(EVENT, v);
    ChosenBlanked(EVENT.otherwise, v);
  }

  lemma ChosenBlanked(shape: Shape, v: Value)
    requires shape.ByMethod?
    ensures Blanked(shape, v) == Blanked(Chosen(shape, v), v)
  {
  }

  lemma BlankedBy(shape: Shape, v: Value, f: Value -> Value)
    requires forall x :: f(x) == Null
    ensures Apply(shape, v, f) == Blanked(shape, v)
  {
    EveryTrivially(shape, v, x => true);
    ApplyAgrees(shape, v, f, x => Null, x => true);
  }

  lemma TwoWiped(v: Value, first: string, a: Value -> Value, shapeA: Shape,
                 second: string, b: Value -> Value, shapeB: Shape)
    requires first != second && Wipes(a, shapeA) && Wipes(b, shapeB)
    ensures Blanked(Members(map[first := shapeA, second := shapeB]), v)
         == WipeMember(WipeMember(v, first, a), second, b)
  {
    var f: Value -> Value := x => Null;
    var both, one, two :=
      Members(map[first := shapeA, second := shapeB]), Members(map[first := shapeA]), Members(map[second := shapeB]);
    MemberWiped(v, first, a, shapeA);
    if v.Obj? {
      ApplyTwo(v, first, shapeA, second, shapeB, f);
      BlankedBy(both, v, f);
      BlankedBy(one, v, f);
      BlankedBy(two, WipeMember(v, first, a), f);
    }
    MemberWiped(WipeMember(v, first, a), second, b, shapeB);
  }

  lemma ListWiped(v: Value, key: string, wipe: Value -> Value, inner: Shape)
    requires Wipes(wipe, inner)
    ensures Blanked(Members(map[key := Elements(inner)]), v) == WipeMember(v, key, x => WipeItems(x, wipe))
  {
    ItemsWiped(wipe, inner);
    MemberWiped(v, key, x => WipeItems(x, wipe), Elements(inner));
  }

  lemma ResultIsWiped(name: string, v: Value)
    ensures WipeResult(name, v) == Blanked(ResultShape(name), v)
  {
    ProvidersWiped();
    HistoriesWiped();
    EventsWiped();
    if name == "session/list" {
      ListWiped(v, "sessions", y => WipeProvider(y), PROVIDER);
    } else if name == "model/list" {
      ItemsWiped(y => WipeProvider(y), PROVIDER);
      TwoWiped(v, "providerId", x => Null, Here, "models", x => WipeItems(x, y => WipeProvider(y)), Elements(PROVIDER));
    } else if name == "view/page" {
      ListWiped(v, "events", y => WipeEvent(y), EVENT);
    } else if !Unnamed(name) {
      TwoWiped(v, "session", x => WipeProvider(x), PROVIDER, "history", x => WipeHistory(x), HISTORY);
    }
  }

  // ----- the adapters, place by place -----

  lemma Tolerated(shape: Shape, v: Value, provider: PublicProvider)
    ensures Every(shape, v, Acceptable(provider)) <==> Every(shape, v, Tolerable(provider))
    ensures Every(shape, v, Shown(provider)) <==> Every(shape, v, Visible(provider))
  {
    if Every(shape, v, Acceptable(provider)) {
      EveryImplies(shape, v, Acceptable(provider), Tolerable(provider));
    }
    if Every(shape, v, Tolerable(provider)) {
      EveryImplies(shape, v, Tolerable(provider), Acceptable(provider));
    }
    if Every(shape, v, Shown(provider)) {
      EveryImplies(shape, v, Shown(provider), Visible(provider));
    }
    if Every(shape, v, Visible(provider)) {
      EveryImplies(shape, v, Visible(provider), Shown(provider));
    }
  }

  /** A host result is accepted if and only if each provider field its method
      has holds null, the internal or the public name. The client then sees
      null or the public name at each and no other change, and none at all
      for any other method. */
  lemma ResultByPlace(name: string, v: Value, provider: PublicProvider)
    ensures var r := AdaptAt(ResultShape(name), v, provider);
            && (r.Some? <==> ResultHolds(name, Some(v), Tolerable(provider)))
            && (r.Some? ==>
                  ResultHolds(name, r, Visible(provider)) && WipeResult(name, r.value) == WipeResult(name, v))
            && (Unnamed(name) ==> r == Some(v))
  {
    var shape, r := ResultShape(name), AdaptAt(ResultShape(name), v, provider);
    ResultPlaces(name, v, Tolerable(provider));
    Tolerated(shape, v, provider);
    if r.Some? {
      ResultsSound(name);
      AdaptedForClient(shape, v, provider);
      Tolerated(shape, r.value, provider);
      ResultPlaces(name, r.value, Visible(provider));
      ResultIsWiped(name, r.value);
      ResultIsWiped(name, v);
    }
  }

  /** Likewise for a host notification. */
  lemma NotificationByPlace(name: string, v: Value, provider: PublicProvider)
    ensures var r := AdaptAt(NotificationShape(name), v, provider);
            && (r.Some? <==> NotificationHolds(name, Some(v), Tolerable(provider)))
            && (r.Some? ==>
                  && NotificationHolds(name, r, Visible(provider))
                  && WipeNotification(name, r.value) == WipeNotification(name, v))
  {
    var shape, r := NotificationShape(name), AdaptAt(NotificationShape(name), v, provider);
    NotificationPlaces(name, Some(v), Tolerable(provider));
    Tolerated(shape, v, provider);
    if r.Some? {
      NotificationsSound(name);
      AdaptedForClient(shape, v, provider);
      Tolerated(shape, r.value, provider);
      NotificationPlaces(name, r, Visible(provider));
      NotificationWiped(name, r.value);
      NotificationWiped(name, v);
    }
  }

  // ----- client messages -----

  /** The provider a client command names, where its method has one. */
  function CommandPlace(name: string, v: Option<Value>): Option<Value> {
    if name == "session/start" then At(At(v, "params"), "providerId")
    else if name == "session/setModel" then At(At(At(v, "params"), "model"), "providerId")
    else None
  }

  function WipeCommand(name: string, v: Value): Value {
    if name == "session/start" then WipeMember(v, "params", x => WipeProvider(x))
    else if name == "session/setModel" then
      WipeMember(v, "params", x => WipeMember(x, "model", y => WipeProvider(y)))
    else v
  }

  lemma CommandWiped(name: string, v: Value)
    ensures WipeCommand(name, v) == Blanked(ClientShape(name), v)
  {
    ProvidersWiped();
    var provider: Value -> Value := x => WipeProvider(x);
    var model: Value -> Value := x => WipeMember(x, "model", y => WipeProvider(y));
    forall x: Value
      ensures model(x) == Blanked(Members(map["model" := PROVIDER]), x)
    {
      MemberWiped(x, "model", provider, PROVIDER);
    }
    MemberWiped(v, "params", model, Members(map["model" := PROVIDER]));
    MemberWiped(v, "params", provider, PROVIDER);
  }
}
