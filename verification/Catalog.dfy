/** The model catalog the gateway publishes. */
module Catalog {
  import opened Prelude
  import opened StableSort

  /** What the catalog takes from Unicode and from version parsing: does a text
      hold a control or white-space character, a control character, one other
      than tab and line breaks; is it white space only; and a dotted triple. */
  datatype Chars = Chars(
    blank: string -> bool,
    control: string -> bool,
    strayControl: string -> bool,
    empty: string -> bool,
    version: string -> Option<(nat, nat, nat)>)

  ghost predicate Lawful(c: Chars) {
    && (forall t: string :: Graphic(t) ==> !c.blank(t))
    && (forall t: string :: '\0' in t ==> c.strayControl(t))
    && c.empty("")
  }

  datatype Version = Text(text: string) | Triple(parts: (nat, nat, nat))

  datatype Upstream = Upstream(
    slug: string,
    displayName: Option<string>,
    description: Option<string>,
    contextWindow: Option<int>,
    maxOutputTokens: Option<int>,
    efforts: seq<string>,
    defaultEffort: Option<string>,
    priority: int,
    visibility: Option<string>,
    minimalVersion: Option<Version>,
    lite: bool,
    toolMode: Option<string>,
    modalities: seq<string>,
    inApi: bool,
    fast: bool)

  datatype Model = Model(
    id: string,
    displayName: Option<string>,
    description: Option<string>,
    contextWindow: Option<nat>,
    maxOutputTokens: Option<nat>,
    efforts: seq<string>,
    defaultEffort: Option<string>,
    visible: bool,
    isDefault: bool,
    lite: bool,
    toolMode: Option<string>,
    modalities: seq<string>,
    inApi: bool,
    fast: bool)

  datatype Fault =
    | Mixed | NoModels | TooMany | BadId | DuplicateId | BadVisibility | BadVersion | BadText | BadLimit | BadModality
    | NoneVisible

  const MAX_MODELS: nat := 4096

  const MAX_ID_BYTES: nat := 256

  const I64_MAX: nat := 0x7FFF_FFFF_FFFF_FFFF

  // ----- one model -----

  predicate ValidId(c: Chars, id: string) {
    id != "" && |id| <= MAX_ID_BYTES && id[0] != '-' && !c.blank(id)
  }

  const EFFORTS: seq<string> := ["none", "minimal", "low", "medium", "high", "xhigh", "max", "ultra"]

  predicate IsEffort(effort: string) { effort in EFFORTS }

  /** Known efforts, each once, in the order first listed. */
  function KeepEfforts(levels: seq<string>): seq<string> {
    if levels == [] then []
    else
      var kept, last := KeepEfforts(levels[..|levels| - 1]), levels[|levels| - 1];
      if IsEffort(last) && last !in kept then kept + [last] else kept
  }

  method CollectEfforts(levels: seq<string>) returns (kept: seq<string>)
    ensures kept == KeepEfforts(levels)
  {
    kept := [];
    for i := 0 to |levels|
      invariant kept == KeepEfforts(levels[..i])
    {
      assert levels[..i + 1][..i] == levels[..i];
      if !IsEffort(levels[i]) {
        continue;
      }
      if levels[i] !in kept {
        kept := kept + [levels[i]];
      }
    }
    assert levels[..|levels|] == levels;
  }

  function Limit(value: Option<int>): Result<Option<nat>, Fault> {
    if value.None? then Ok(None) else if value.value > 0 then Ok(Some(value.value)) else Err(BadLimit)
  }

  function DisplayText(c: Chars, value: Option<string>): Result<Option<string>, Fault> {
    if value.None? || c.empty(value.value) then Ok(None)
    else if |value.value| > 512 || c.control(value.value) then Err(BadText)
    else Ok(value)
  }

  function DescriptionText(c: Chars, value: Option<string>): Result<Option<string>, Fault> {
    if value.None? || c.empty(value.value) then Ok(None)
    else if |value.value| > 16 * 1024 || c.strayControl(value.value) then Err(BadText)
    else Ok(value)
  }

  function KeepModalities(c: Chars, modalities: seq<string>): Result<seq<string>, Fault> {
    if modalities == [] then Ok([])
    else
      match KeepModalities(c, modalities[..|modalities| - 1])
      case Err(fault) => Err(fault)
      case Ok(kept) =>
        var last := modalities[|modalities| - 1];
        if last == "" || |last| > 32 || c.blank(last) then Err(BadModality)
        else Ok(if last in kept then kept else kept + [last])
  }

  function Later(a: (nat, nat, nat), b: (nat, nat, nat)): bool {
    a.0 > b.0 || (a.0 == b.0 && (a.1 > b.1 || (a.1 == b.1 && a.2 > b.2)))
  }

  /** Whether a model asks for a client later than `client`. */
  function NeedsLater(c: Chars, client: (nat, nat, nat), minimal: Option<Version>): Result<bool, Fault> {
    if minimal.None? then Ok(false)
    else
      match minimal.value
      case Triple(parts) => Ok(Later(parts, client))
      case Text(text) => if c.version(text).None? then Err(BadVersion) else Ok(Later(c.version(text).value, client))
  }

  function Listed(visibility: Option<string>): Result<bool, Fault> {
    if visibility.None? || visibility.value == "list" then Ok(true)
    else if visibility.value == "hide" || visibility.value == "none" then Ok(false)
    else Err(BadVisibility)
  }

  predicate KnownToolMode(mode: Option<string>) {
    mode.None? || mode.value in {"direct", "code_mode", "code_mode_only"}
  }

  /** One catalog entry, not yet marked as the default. */
  function NormalizeModel(c: Chars, client: (nat, nat, nat), m: Upstream): Result<Model, Fault> {
    match Listed(m.visibility)
    case Err(fault) => Err(fault)
    case Ok(listed) =>
    match NeedsLater(c, client, m.minimalVersion)
    case Err(fault) => Err(fault)
    case Ok(later) =>
    match KeepModalities(c, m.modalities)
    case Err(fault) => Err(fault)
    case Ok(modalities) =>
    match DisplayText(c, m.displayName)
    case Err(fault) => Err(fault)
    case Ok(displayName) =>
    match DescriptionText(c, m.description)
    case Err(fault) => Err(fault)
    case Ok(description) =>
    match Limit(m.contextWindow)
    case Err(fault) => Err(fault)
    case Ok(contextWindow) =>
    match Limit(m.maxOutputTokens)
    case Err(fault) => Err(fault)
    case Ok(maxOutputTokens) =>
      var efforts := KeepEfforts(m.efforts);
      var visible := listed && !later && KnownToolMode(m.toolMode)
                     && (m.efforts == [] || efforts != []) && (modalities == [] || "text" in modalities);
      Ok(Model(m.slug, displayName, description, contextWindow, maxOutputTokens, efforts,
               if m.defaultEffort.Some? && m.defaultEffort.value in efforts then m.defaultEffort else None,
               visible, false, m.lite, m.toolMode, modalities, m.inApi, m.fast))
  }

  // ----- the list -----

  /** A subscription catalog is offered in the order of its priorities. */
  function SortByPriority(models: seq<Upstream>): seq<Upstream> { SortByKey(models, (m: Upstream) => m.priority) }

  function Ids(models: seq<Model>): set<string> { set i | 0 <= i < |models| :: models[i].id }

  /** The entries read so far, extended by one. */
  function Extend(c: Chars, client: (nat, nat, nat), models: seq<Model>, m: Upstream): Result<seq<Model>, Fault> {
    if !ValidId(c, m.slug) then Err(BadId)
    else if m.slug in Ids(models) then Err(DuplicateId)
    else
      match NormalizeModel(c, client, m)
      case Err(fault) => Err(fault)
      case Ok(model) => Ok(models + [model])
  }

  function ExtendAll(c: Chars, client: (nat, nat, nat), models: seq<Model>,
                     more: seq<Upstream>): Result<seq<Model>, Fault>
    decreases |more|
  {
    if more == [] then Ok(models)
    else
      match Extend(c, client, models, more[0])
      case Err(fault) => Err(fault)
      case Ok(next) => ExtendAll(c, client, next, more[1..])
  }

  function FirstVisible(models: seq<Model>): (i: nat)
    ensures i <= |models|
    ensures forall j :: 0 <= j < i ==> !models[j].visible
    ensures i < |models| ==> models[i].visible
  {
    if models == [] || models[0].visible then 0 else 1 + FirstVisible(models[1..])
  }

  function MarkDefault(models: seq<Model>): Result<seq<Model>, Fault> {
    var i := FirstVisible(models);
    if i == |models| then Err(NoneVisible) else Ok(models[i := models[i].(isDefault := true)])
  }

  /** The catalog out of a subscription list or a public API list. */
  function Normalize(c: Chars, client: (nat, nat, nat), subscription: seq<Upstream>,
                     api: seq<Upstream>): Result<seq<Model>, Fault> {
    if subscription != [] && api != [] then Err(Mixed)
    else
      var listed := if subscription != [] then SortByPriority(subscription) else api;
      if listed == [] then Err(NoModels)
      else if |listed| > MAX_MODELS then Err(TooMany)
      else
        match ExtendAll(c, client, [], listed)
        case Err(fault) => Err(fault)
        case Ok(models) => MarkDefault(models)
  }

  // ----- the loops -----

  method NormalizeModels(c: Chars, client: (nat, nat, nat), subscription: seq<Upstream>, api: seq<Upstream>)
    returns (r: Result<seq<Model>, Fault>)
    ensures r == Normalize(c, client, subscription, api)
  {
    if subscription != [] && api != [] {
      return Err(Mixed);
    }
    var listed := if subscription != [] then SortByPriority(subscription) else api;
    if listed == [] {
      return Err(NoModels);
    }
    if |listed| > MAX_MODELS {
      return Err(TooMany);
    }
    var seen: set<string>, models: seq<Model> := {}, [];
    for i := 0 to |listed|
      invariant seen == Ids(models)
      invariant ExtendAll(c, client, models, listed[i..]) == ExtendAll(c, client, [], listed)
    {
      assert listed[i..][0] == listed[i] && listed[i..][1..] == listed[i + 1..];
      if !ValidId(c, listed[i].slug) {
        return Err(BadId);
      }
      if listed[i].slug in seen {
        return Err(DuplicateId);
      }
      seen := seen + {listed[i].slug};
      match NormalizeModel(c, client, listed[i]) {
        case Err(fault) => return Err(fault);
        case Ok(model) =>
          IdsAppend(models, model);
          models := models + [model];
      }
    }
    return MarkDefault(models);
  }

  lemma IdsAppend(models: seq<Model>, model: Model)
    ensures Ids(models + [model]) == Ids(models) + {model.id}
  {
    var more := models + [model];
    assert forall i :: 0 <= i < |models| ==> more[i] == models[i];
    assert more[|models|] == model;
    forall id | id in Ids(models)
      ensures id in Ids(more)
    {
      var i :| 0 <= i < |models| && models[i].id == id;
      assert more[i].id == id;
    }
  }

  /** The account's entry for `id`, if it has one. */
  function Find(models: seq<Model>, id: string): (i: nat)
    ensures i <= |models|
    ensures forall j :: 0 <= j < i ==> models[j].id != id
    ensures i < |models| ==> models[i].id == id
  {
    if models == [] || models[0].id == id then 0 else 1 + Find(models[1..], id)
  }

  /** The bundled entries the account also has, with the bundled metadata, in
      the bundled order; visible only where both are. */
  function Intersect(available: seq<Model>, bundled: seq<Model>): seq<Model>
    decreases |bundled|
  {
    if bundled == [] then []
    else
      var i, rest := Find(available, bundled[0].id), Intersect(available, bundled[1..]);
      if i < |available| && bundled[0].inApi then [Both(bundled[0], available[i])] + rest else rest
  }

  predicate DistinctIds(models: seq<Model>) { forall i, j :: 0 <= i < j < |models| ==> models[i].id != models[j].id }

  lemma FindUnique(models: seq<Model>, id: string, i: nat)
    requires i < |models| && models[i].id == id && DistinctIds(models)
    ensures Find(models, id) == i
  {
    assert Find(models, id) <= i;
  }

  /** An entry already taken out of the account's list is not missed: the
      bundled ids are distinct. */
  lemma {:induction false} IntersectWithout(available: seq<Model>, i: nat, bundled: seq<Model>)
    requires i < |available| && DistinctIds(available)
    requires forall k :: 0 <= k < |bundled| ==> bundled[k].id != available[i].id
    ensures Intersect(available[..i] + available[i + 1..], bundled) == Intersect(available, bundled)
    decreases |bundled|
  {
    if bundled != [] {
      var rest := available[..i] + available[i + 1..];
      var id := bundled[0].id;
      assert forall k :: 0 <= k < |rest| ==> rest[k] == available[if k < i then k else k + 1];
      var found := Find(available, id);
      if found < |available| {
        assert found != i;
        assert rest[if found < i then found else found - 1] == available[found];
        assert DistinctIds(rest);
        FindUnique(rest, id, if found < i then found else found - 1);
      } else {
        assert Find(rest, id) == |rest|;
      }
      IntersectWithout(available, i, bundled[1..]);
    }
  }

  function Both(metadata: Model, accountModel: Model): Model {
    metadata.(visible := metadata.visible && accountModel.visible, isDefault := false)
  }

  lemma DistinctRest(models: seq<Model>)
    requires models != [] && DistinctIds(models)
    ensures DistinctIds(models[1..]) && forall k :: 0 <= k < |models[1..]| ==> models[1..][k].id != models[0].id
  {
    assert forall k :: 0 <= k < |models[1..]| ==> models[1..][k] == models[k + 1];
  }

  lemma DistinctWithout(models: seq<Model>, i: nat)
    requires i < |models| && DistinctIds(models)
    ensures DistinctIds(models[..i] + models[i + 1..])
  {
    var rest := models[..i] + models[i + 1..];
    assert forall j :: 0 <= j < |rest| ==> rest[j] == models[if j < i then j else j + 1];
  }

  lemma IntersectHead(available: seq<Model>, bundled: seq<Model>)
    requires bundled != []
    ensures var i, rest := Find(available, bundled[0].id), Intersect(available, bundled[1..]);
            Intersect(available, bundled)
            == if i < |available| && bundled[0].inApi then [Both(bundled[0], available[i])] + rest else rest
  {
  }

  lemma Gathered<T>(merged: seq<T>, first: seq<T>, rest: seq<T>)
    ensures merged + (first + rest) == (merged + first) + rest && merged + [] == merged
  {
  }

  method MergeBundled(account: seq<Model>, bundled: seq<Model>) returns (r: Result<seq<Model>, Fault>)
    requires DistinctIds(account) && DistinctIds(bundled)
    ensures r == MarkDefault(Intersect(account, bundled))
  {
    var available, merged, rest := account, [], bundled;
    Gathered([], [], Intersect(account, bundled));
    while rest != []
      invariant DistinctIds(available) && DistinctIds(rest)
      invariant merged + Intersect(available, rest) == Intersect(account, bundled)
    {
      var metadata := rest[0];
      DistinctRest(rest);
      IntersectHead(available, rest);
      rest := rest[1..];
      var i := Find(available, metadata.id);
      if i == |available| {
        continue;
      }
      var accountModel := available[i];
      IntersectWithout(available, i, rest);
      DistinctWithout(available, i);
      available := available[..i] + available[i + 1..];
      Gathered(merged, [Both(metadata, accountModel)], Intersect(available, rest));
      if !metadata.inApi {
        continue;
      }
      var model := metadata;
      model := model.(visible := model.visible && accountModel.visible);
      model := model.(isDefault := false);
      merged := merged + [model];
    }
    Gathered(merged, [], []);
    return MarkDefault(merged);
  }
}
