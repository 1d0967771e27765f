/** What the published catalog says of each upstream entry. */
module CatalogMeaning {
  import opened Prelude
  import opened StableSort
  import opened Catalog

  // ----- one entry -----

  predicate KnownEffort(effort: string) {
    effort == "none" || effort == "minimal" || effort == "low" || effort == "medium" || effort == "high"
    || effort == "xhigh" || effort == "max" || effort == "ultra"
  }

  const KNOWN: string -> bool := effort => KnownEffort(effort)

  const ANY: string -> bool := text => true

  lemma EffortKnown(effort: string)
    ensures IsEffort(effort) <==> KnownEffort(effort)
  {
    assert EFFORTS[0] == "none" && EFFORTS[1] == "minimal" && EFFORTS[2] == "low" && EFFORTS[3] == "medium";
    assert EFFORTS[4] == "high" && EFFORTS[5] == "xhigh" && EFFORTS[6] == "max" && EFFORTS[7] == "ultra";
  }

  /** `kept` holds the members of `all` with `good`, each once, in the order in
      which they first occur. */
  ghost predicate FirstsOf(kept: seq<string>, all: seq<string>, good: string -> bool) {
    && (forall x :: x in kept <==> x in all && good(x))
    && (forall i, j :: 0 <= i < j < |kept| ==> FirstAt(all, kept[i]) < FirstAt(all, kept[j]))
  }

  /** Where a text first occurs, or the length. */
  function FirstAt(all: seq<string>, x: string): (i: nat)
    ensures i <= |all| && (i < |all| <==> x in all) && (i < |all| ==> all[i] == x)
    ensures forall j :: 0 <= j < i ==> all[j] != x
  {
    if all == [] || all[0] == x then 0 else 1 + FirstAt(all[1..], x)
  }

  /** The entry asks for a client later than the gateway is. */
  predicate AsksLater(c: Chars, client: (nat, nat, nat), minimal: Option<Version>) {
    match minimal
    case None => false
    case Some(Triple(parts)) => Exceeds(parts, client)
    case Some(Text(text)) => c.version(text).Some? && Exceeds(c.version(text).value, client)
  }

  predicate Exceeds(a: (nat, nat, nat), b: (nat, nat, nat)) {
    var (a0, a1, a2) := a;
    var (b0, b1, b2) := b;
    b0 < a0 || (b0 == a0 && b1 < a1) || (b0 == a0 && b1 == a1 && b2 < a2)
  }

  /** A user may be offered the entry. */
  predicate Offered(c: Chars, client: (nat, nat, nat), m: Upstream) {
    && (m.visibility == None || m.visibility == Some("list")) && !AsksLater(c, client, m.minimalVersion)
    && (m.toolMode == None || m.toolMode == Some("direct") || m.toolMode == Some("code_mode")
        || m.toolMode == Some("code_mode_only"))
    && (m.efforts == [] || exists i :: 0 <= i < |m.efforts| && KnownEffort(m.efforts[i]))
    && (m.modalities == [] || "text" in m.modalities)
  }

  /** An optional text, where one of white space only counts as absent. */
  function TextGiven(c: Chars, text: Option<string>): Option<string> {
    if text.Some? && c.empty(text.value) then None else text
  }

  predicate SameLimit(published: Option<nat>, given: Option<int>) {
    published.Some? == given.Some? && (given.Some? ==> published.value == given.value)
  }

  /** What the catalog says of an entry, apart from the default. */
  ghost predicate Publishes(c: Chars, client: (nat, nat, nat), m: Upstream, p: Model) {
    && p.id == m.slug && (p.visible <==> Offered(c, client, m))
    && p.displayName == TextGiven(c, m.displayName) && p.description == TextGiven(c, m.description)
    && SameLimit(p.contextWindow, m.contextWindow) && SameLimit(p.maxOutputTokens, m.maxOutputTokens)
    && FirstsOf(p.efforts, m.efforts, KNOWN)
    && p.defaultEffort
       == (if m.defaultEffort.Some? && m.defaultEffort.value in p.efforts then m.defaultEffort else None)
    && FirstsOf(p.modalities, m.modalities, ANY)
    && p.lite == m.lite && p.toolMode == m.toolMode && p.inApi == m.inApi && p.fast == m.fast
  }

  predicate PositiveLimit(limit: Option<int>) { limit.Some? ==> limit.value > 0 }

  /** An entry the gateway takes. */
  predicate Takes(c: Chars, m: Upstream) {
    && m.slug != "" && |m.slug| <= 256 && m.slug[0] != '-' && !c.blank(m.slug)
    && (m.visibility == None || m.visibility in {Some("list"), Some("hide"), Some("none")})
    && (m.minimalVersion.Some? && m.minimalVersion.value.Text? ==> c.version(m.minimalVersion.value.text).Some?)
    && (forall i :: 0 <= i < |m.modalities| ==>
          m.modalities[i] != "" && |m.modalities[i]| <= 32 && !c.blank(m.modalities[i]))
    && (TextGiven(c, m.displayName).Some? ==> |m.displayName.value| <= 512 && !c.control(m.displayName.value))
    && (TextGiven(c, m.description).Some? ==>
          |m.description.value| <= 16384 && !c.strayControl(m.description.value))
    && PositiveLimit(m.contextWindow) && PositiveLimit(m.maxOutputTokens)
  }

  lemma FirstsOfNone(good: string -> bool)
    ensures FirstsOf([], [], good)
  {
  }

  lemma {:induction false} EffortsKept(levels: seq<string>)
    ensures FirstsOf(KeepEfforts(levels), levels, KNOWN)
    decreases |levels|
  {
    if levels == [] {
      FirstsOfNone(KNOWN);
    } else {
      var front, last := levels[..|levels| - 1], levels[|levels| - 1];
      EffortsKept(front);
      EffortsMore(front, last);
      assert front + [last] == levels;
    }
  }

  lemma EffortsMore(front: seq<string>, last: string)
    requires FirstsOf(KeepEfforts(front), front, KNOWN)
    ensures FirstsOf(KeepEfforts(front + [last]), front + [last], KNOWN)
  {
    EffortKnown(last);
    FirstsMore(KeepEfforts(front), front, last, KNOWN);
    assert (front + [last])[..|front|] == front;
  }

  lemma FirstsMore(kept: seq<string>, all: seq<string>, last: string, good: string -> bool)
    requires FirstsOf(kept, all, good)
    ensures FirstsOf(if good(last) && last !in kept then kept + [last] else kept, all + [last], good)
  {
    var more := if good(last) && last !in kept then kept + [last] else kept;
    forall x | x in all
      ensures FirstAt(all + [last], x) == FirstAt(all, x)
    {
      FirstAtStays(all, last, x);
    }
    if last !in all {
      FirstAtEnd(all, last);
    }
    forall i, j | 0 <= i < j < |more|
      ensures FirstAt(all + [last], more[i]) < FirstAt(all + [last], more[j])
    {
      assert more[i] in kept && more[i] in all;
      assert j < |kept| ==> more[j] in kept;
    }
  }

  lemma FirstAtStays(all: seq<string>, last: string, x: string)
    requires x in all
    ensures FirstAt(all + [last], x) == FirstAt(all, x)
  {
    var i, j := FirstAt(all, x), FirstAt(all + [last], x);
    assert (all + [last])[i] == x;
    assert j <= i;
    assert all[j] == (all + [last])[j];
  }

  lemma FirstAtEnd(all: seq<string>, last: string)
    requires last !in all
    ensures FirstAt(all + [last], last) == |all|
  {
    assert (all + [last])[|all|] == last;
    assert forall j :: 0 <= j < |all| ==> (all + [last])[j] == all[j];
  }

  predicate GoodModality(c: Chars, modality: string) { modality != "" && |modality| <= 32 && !c.blank(modality) }

  predicate GoodModalities(c: Chars, modalities: seq<string>) {
    forall i :: 0 <= i < |modalities| ==> GoodModality(c, modalities[i])
  }

  lemma {:induction false} ModalitiesKept(c: Chars, modalities: seq<string>)
    ensures KeepModalities(c, modalities).Ok? <==> GoodModalities(c, modalities)
    ensures KeepModalities(c, modalities).Ok? ==> FirstsOf(KeepModalities(c, modalities).value, modalities, ANY)
    decreases |modalities|
  {
    if modalities == [] {
      FirstsOfNone(ANY);
    } else {
      var front, last := modalities[..|modalities| - 1], modalities[|modalities| - 1];
      ModalitiesKept(c, front);
      ModalitiesMore(c, front, last);
      assert front + [last] == modalities;
    }
  }

  lemma ModalitiesMore(c: Chars, front: seq<string>, last: string)
    requires KeepModalities(c, front).Ok? <==> GoodModalities(c, front)
    requires KeepModalities(c, front).Ok? ==> FirstsOf(KeepModalities(c, front).value, front, ANY)
    ensures KeepModalities(c, front + [last]).Ok? <==> GoodModalities(c, front + [last])
    ensures KeepModalities(c, front + [last]).Ok? ==>
              FirstsOf(KeepModalities(c, front + [last]).value, front + [last], ANY)
  {
    var all := front + [last];
    assert all[..|front|] == front && all[|front|] == last;
    assert forall i :: 0 <= i < |front| ==> all[i] == front[i];
    assert GoodModalities(c, all) <==> GoodModalities(c, front) && GoodModality(c, last);
    if KeepModalities(c, front).Ok? {
      FirstsMore(KeepModalities(c, front).value, front, last, ANY);
    }
  }

  lemma SomeEffort(m: Upstream)
    ensures KeepEfforts(m.efforts) != [] <==> exists i :: 0 <= i < |m.efforts| && KnownEffort(m.efforts[i])
  {
    EffortsKept(m.efforts);
    var kept := KeepEfforts(m.efforts);
    if kept != [] {
      assert kept[0] in kept;
      var i :| 0 <= i < |m.efforts| && m.efforts[i] == kept[0];
      assert KnownEffort(m.efforts[i]);
    }
    if i :| 0 <= i < |m.efforts| && KnownEffort(m.efforts[i]) {
      assert m.efforts[i] in kept;
    }
  }

  lemma TextTaken(c: Chars, text: Option<string>)
    ensures DisplayText(c, text).Ok? <==> (TextGiven(c, text).Some? ==> |text.value| <= 512 && !c.control(text.value))
    ensures DisplayText(c, text).Ok? ==> DisplayText(c, text).value == TextGiven(c, text)
    ensures DescriptionText(c, text).Ok?
       <==> (TextGiven(c, text).Some? ==> |text.value| <= 16384 && !c.strayControl(text.value))
    ensures DescriptionText(c, text).Ok? ==> DescriptionText(c, text).value == TextGiven(c, text)
  {
  }

  lemma LimitTaken(limit: Option<int>)
    ensures Limit(limit).Ok? <==> PositiveLimit(limit)
    ensures Limit(limit).Ok? ==> SameLimit(Limit(limit).value, limit)
  {
  }

  lemma VersionRead(c: Chars, client: (nat, nat, nat), minimal: Option<Version>)
    ensures NeedsLater(c, client, minimal).Ok?
       <==> (minimal.Some? && minimal.value.Text? ==> c.version(minimal.value.text).Some?)
    ensures NeedsLater(c, client, minimal).Ok? ==> NeedsLater(c, client, minimal).value == AsksLater(c, client, minimal)
  {
  }

  lemma VisibilityRead(visibility: Option<string>)
    ensures Listed(visibility).Ok? <==> visibility == None || visibility in {Some("list"), Some("hide"), Some("none")}
    ensures Listed(visibility).Ok? ==> Listed(visibility).value == (visibility == None || visibility == Some("list"))
  {
  }

  lemma ToolModeRead(mode: Option<string>)
    ensures KnownToolMode(mode)
       <==> mode == None || mode == Some("direct") || mode == Some("code_mode") || mode == Some("code_mode_only")
  {
  }

  lemma ModalityListed(modalities: seq<string>, kept: seq<string>)
    requires FirstsOf(kept, modalities, ANY)
    ensures kept == [] || "text" in kept <==> modalities == [] || "text" in modalities
  {
    if modalities != [] {
      assert modalities[0] in kept;
    }
    if kept != [] {
      assert kept[0] in kept;
    }
  }

  /** Each step of taking the entry in. */
  lemma EntrySteps(c: Chars, client: (nat, nat, nat), m: Upstream)
    ensures NormalizeModel(c, client, m).Ok?
       <==> && Listed(m.visibility).Ok? && NeedsLater(c, client, m.minimalVersion).Ok?
            && KeepModalities(c, m.modalities).Ok? && DisplayText(c, m.displayName).Ok?
            && DescriptionText(c, m.description).Ok? && Limit(m.contextWindow).Ok? && Limit(m.maxOutputTokens).Ok?
    ensures NormalizeModel(c, client, m).Ok? ==>
              var p, efforts := NormalizeModel(c, client, m).value, KeepEfforts(m.efforts);
              && p.displayName == DisplayText(c, m.displayName).value
              && p.description == DescriptionText(c, m.description).value
              && p.contextWindow == Limit(m.contextWindow).value && p.maxOutputTokens == Limit(m.maxOutputTokens).value
              && p.efforts == efforts && p.modalities == KeepModalities(c, m.modalities).value
              && p.defaultEffort
                 == (if m.defaultEffort.Some? && m.defaultEffort.value in efforts then m.defaultEffort else None)
              && p.id == m.slug && p.lite == m.lite && p.toolMode == m.toolMode && p.inApi == m.inApi
                 && p.fast == m.fast
              && !p.isDefault
              && (p.visible <==>
                    && Listed(m.visibility).value && !NeedsLater(c, client, m.minimalVersion).value
                    && KnownToolMode(m.toolMode) && (m.efforts == [] || efforts != [])
                    && (p.modalities == [] || "text" in p.modalities))
  {
  }

  /** The entry is taken, and published, exactly as it should be. */
  lemma EntryPublished(c: Chars, client: (nat, nat, nat), m: Upstream)
    ensures ValidId(c, m.slug) && NormalizeModel(c, client, m).Ok? <==> Takes(c, m)
    ensures NormalizeModel(c, client, m).Ok? ==>
              && Publishes(c, client, m, NormalizeModel(c, client, m).value)
              && !NormalizeModel(c, client, m).value.isDefault
  {
    EntrySteps(c, client, m);
    VisibilityRead(m.visibility);
    VersionRead(c, client, m.minimalVersion);
    TextTaken(c, m.displayName);
    TextTaken(c, m.description);
    LimitTaken(m.contextWindow);
    LimitTaken(m.maxOutputTokens);
    ModalitiesKept(c, m.modalities);
    if NormalizeModel(c, client, m).Ok? {
      ToolModeRead(m.toolMode);
      EffortsKept(m.efforts);
      SomeEffort(m);
      ModalityListed(m.modalities, KeepModalities(c, m.modalities).value);
    }
  }

  // ----- the list -----

  predicate DistinctSlugs(entries: seq<Upstream>) {
    forall i, j :: 0 <= i < j < |entries| ==> entries[i].slug != entries[j].slug
  }

  predicate Fresh(models: seq<Model>, entries: seq<Upstream>) {
    forall i :: 0 <= i < |entries| ==> entries[i].slug !in Ids(models)
  }

  predicate AllTaken(c: Chars, entries: seq<Upstream>) { forall i :: 0 <= i < |entries| ==> Takes(c, entries[i]) }

  /** One model for each entry, none marked. */
  ghost predicate PublishesAll(c: Chars, client: (nat, nat, nat), entries: seq<Upstream>, models: seq<Model>) {
    |models| == |entries|
    && forall i :: 0 <= i < |entries| ==> Publishes(c, client, entries[i], models[i]) && !models[i].isDefault
  }

  lemma RestTaken(c: Chars, models: seq<Model>, entries: seq<Upstream>, model: Model)
    requires entries != [] && model.id == entries[0].slug
    ensures AllTaken(c, entries) <==> Takes(c, entries[0]) && AllTaken(c, entries[1..])
    ensures DistinctSlugs(entries) && Fresh(models, entries)
       <==> entries[0].slug !in Ids(models) && DistinctSlugs(entries[1..]) && Fresh(models + [model], entries[1..])
  {
    var rest := entries[1..];
    IdsAppend(models, model);
    assert forall i :: 0 <= i < |rest| ==> rest[i] == entries[i + 1];
    assert forall i :: 0 < i < |entries| ==> entries[i] == rest[i - 1];
  }

  lemma {:induction false} AllPublished(c: Chars, client: (nat, nat, nat), models: seq<Model>, entries: seq<Upstream>)
    returns (more: seq<Model>)
    ensures ExtendAll(c, client, models, entries).Ok?
       <==> AllTaken(c, entries) && DistinctSlugs(entries) && Fresh(models, entries)
    ensures ExtendAll(c, client, models, entries).Ok? ==>
              ExtendAll(c, client, models, entries) == Ok(models + more) && PublishesAll(c, client, entries, more)
    decreases |entries|
  {
    more := [];
    if entries == [] {
      assert models + [] == models;
    } else {
      var m, rest := entries[0], entries[1..];
      EntryPublished(c, client, m);
      var normalized := NormalizeModel(c, client, m);
      if ValidId(c, m.slug) && m.slug !in Ids(models) && normalized.Ok? {
        var model := normalized.value;
        RestTaken(c, models, entries, model);
        var later := AllPublished(c, client, models + [model], rest);
        more := [model] + later;
        assert (models + [model]) + later == models + more;
        assert forall i :: 0 < i < |entries| ==> entries[i] == rest[i - 1];
      } else {
        assert Extend(c, client, models, m).Err?;
      }
    }
  }

  /** The entries of one priority, in order. */
  function OfPriority(entries: seq<Upstream>, k: int): seq<Upstream> {
    if entries == [] then []
    else OfPriority(entries[..|entries| - 1], k)
         + if entries[|entries| - 1].priority == k then [entries[|entries| - 1]] else []
  }

  lemma {:induction false} PriorityIsKey(entries: seq<Upstream>, key: Upstream -> int, k: int)
    requires forall m :: key(m) == m.priority
    ensures WithKey(entries, key, k) == OfPriority(entries, k)
  {
    if entries != [] {
      PriorityIsKey(entries[..|entries| - 1], key, k);
    }
  }

  /** A subscription is offered by priority, entries of one priority as given;
      a public list as given. */
  ghost predicate InOrder(subscription: seq<Upstream>, api: seq<Upstream>, listed: seq<Upstream>) {
    if subscription == [] then listed == api
    else
      && multiset(listed) == multiset(subscription)
      && (forall i, j :: 0 <= i < j < |listed| ==> listed[i].priority <= listed[j].priority)
      && (forall k: int :: OfPriority(listed, k) == OfPriority(subscription, k))
  }

  lemma SortedInOrder(subscription: seq<Upstream>)
    requires subscription != []
    ensures InOrder(subscription, [], SortByPriority(subscription))
  {
    var key := (m: Upstream) => m.priority;
    var sorted := SortByKey(subscription, key);
    assert sorted == SortByPriority(subscription);
    SortKeeps(subscription, key);
    SortOrders(subscription, key);
    forall k: int
      ensures OfPriority(sorted, k) == OfPriority(subscription, k)
    {
      SortFilters(subscription, key, k);
      PriorityIsKey(sorted, key, k);
      PriorityIsKey(subscription, key, k);
    }
  }

  /** The first entry a user may be offered is the default. */
  ghost predicate Catalogued(c: Chars, client: (nat, nat, nat), listed: seq<Upstream>, models: seq<Model>, d: nat) {
    && |models| == |listed| && d < |listed|
    && (forall i :: 0 <= i < |listed| ==>
          Publishes(c, client, listed[i], models[i]) && (models[i].isDefault <==> i == d))
    && Offered(c, client, listed[d]) && forall i :: 0 <= i < d ==> !Offered(c, client, listed[i])
  }

  lemma DefaultMarked(c: Chars, client: (nat, nat, nat), listed: seq<Upstream>, models: seq<Model>)
    requires PublishesAll(c, client, listed, models)
    ensures MarkDefault(models).Ok? <==> exists i :: 0 <= i < |listed| && Offered(c, client, listed[i])
    ensures MarkDefault(models).Ok? ==>
              Catalogued(c, client, listed, MarkDefault(models).value, FirstVisible(models))
  {
    var d := FirstVisible(models);
    if d < |models| {
      assert models[d].visible && Offered(c, client, listed[d]);
    }
    if i :| 0 <= i < |listed| && Offered(c, client, listed[i]) {
      assert models[i].visible;
    }
  }

  /** A catalog is published exactly when it comes in one of its two shapes, has
      one to 4096 entries, takes each, no two of one id, and may offer some. It
      then says of each entry what there is to say, in order, and the first it
      may offer is the default. */
  lemma CatalogPublished(c: Chars, client: (nat, nat, nat), subscription: seq<Upstream>, api: seq<Upstream>)
    returns (listed: seq<Upstream>, d: nat)
    ensures InOrder(subscription, api, listed)
    ensures Normalize(c, client, subscription, api).Ok?
       <==> && (subscription == [] || api == []) && 1 <= |listed| <= 4096
            && AllTaken(c, listed) && DistinctSlugs(listed)
            && exists i :: 0 <= i < |listed| && Offered(c, client, listed[i])
    ensures Normalize(c, client, subscription, api).Ok? ==>
              Catalogued(c, client, listed, Normalize(c, client, subscription, api).value, d)
  {
    listed := if subscription != [] then SortByPriority(subscription) else api;
    if subscription != [] {
      SortedInOrder(subscription);
    }
    d := ListPublished(c, client, listed);
  }

  lemma ListPublished(c: Chars, client: (nat, nat, nat), listed: seq<Upstream>) returns (d: nat)
    ensures ExtendAll(c, client, [], listed).Ok? && MarkDefault(ExtendAll(c, client, [], listed).value).Ok?
       <==> AllTaken(c, listed) && DistinctSlugs(listed)
            && exists i :: 0 <= i < |listed| && Offered(c, client, listed[i])
    ensures ExtendAll(c, client, [], listed).Ok? && MarkDefault(ExtendAll(c, client, [], listed).value).Ok? ==>
              Catalogued(c, client, listed, MarkDefault(ExtendAll(c, client, [], listed).value).value, d)
  {
    var models := AllPublished(c, client, [], listed);
    assert [] + models == models;
    d := FirstVisible(models);
    if ExtendAll(c, client, [], listed).Ok? {
      DefaultMarked(c, client, listed, models);
    }
  }

  // ----- the bundled metadata -----

  /** The bundled entry an account may use, as merged with the account's. */
  ghost predicate Merges(merged: Model, metadata: Model, account: seq<Model>) {
    && metadata.inApi && merged == metadata.(visible := merged.visible, isDefault := false)
    && exists i :: 0 <= i < |account| && account[i].id == metadata.id
         && (merged.visible <==> metadata.visible && account[i].visible)
  }

  predicate InAccount(account: seq<Model>, metadata: Model) {
    exists i :: 0 <= i < |account| && account[i].id == metadata.id
  }

  predicate Increasing(at: seq<nat>) { forall i, j :: 0 <= i < j < |at| ==> at[i] < at[j] }

  ghost predicate MergesAll(account: seq<Model>, bundled: seq<Model>, k: nat, merged: seq<Model>, at: seq<nat>) {
    |at| == |merged| && forall i :: 0 <= i < |at| ==>
      k <= at[i] < |bundled| && Merges(merged[i], bundled[at[i]], account)
  }

  predicate MissesNone(account: seq<Model>, bundled: seq<Model>, k: nat, at: seq<nat>) {
    forall j :: k <= j < |bundled| ==> (j in at <==> bundled[j].inApi && InAccount(account, bundled[j]))
  }

  /** The places `at` tell which bundled entries from `k` on are merged: those
      offered over the API that the account has, in the bundled order. */
  ghost predicate MergedAt(account: seq<Model>, bundled: seq<Model>, k: nat, merged: seq<Model>, at: seq<nat>) {
    Increasing(at) && MergesAll(account, bundled, k, merged, at) && MissesNone(account, bundled, k, at)
  }

  lemma {:induction false} BundledMerged(account: seq<Model>, bundled: seq<Model>, k: nat) returns (at: seq<nat>)
    requires k <= |bundled|
    ensures MergedAt(account, bundled, k, Intersect(account, bundled[k..]), at)
    decreases |bundled| - k
  {
    if k == |bundled| {
      at := [];
    } else {
      var metadata, later := bundled[k], Intersect(account, bundled[k + 1..]);
      assert bundled[k..][0] == metadata && bundled[k..][1..] == bundled[k + 1..];
      IntersectHead(account, bundled[k..]);
      var rest := BundledMerged(account, bundled, k + 1);
      var i := Find(account, metadata.id);
      if i < |account| && metadata.inApi {
        assert Merges(Both(metadata, account[i]), metadata, account);
        MergedMore(account, bundled, k, Both(metadata, account[i]), later, rest);
        at := [k] + rest;
      } else {
        assert !(metadata.inApi && InAccount(account, metadata));
        at := rest;
      }
    }
  }

  lemma MergedMore(account: seq<Model>, bundled: seq<Model>, k: nat, model: Model, later: seq<Model>, rest: seq<nat>)
    requires k < |bundled| && bundled[k].inApi && InAccount(account, bundled[k]) && Merges(model, bundled[k], account)
    requires MergedAt(account, bundled, k + 1, later, rest)
    ensures MergedAt(account, bundled, k, [model] + later, [k] + rest)
  {
    MergesMore(account, bundled, k, model, later, rest);
    MissesStill(account, bundled, k, rest);
    IncreasesMore(k, rest);
  }

  lemma MergesMore(account: seq<Model>, bundled: seq<Model>, k: nat, model: Model, later: seq<Model>, rest: seq<nat>)
    requires k < |bundled| && Merges(model, bundled[k], account) && MergesAll(account, bundled, k + 1, later, rest)
    ensures MergesAll(account, bundled, k, [model] + later, [k] + rest)
  {
    forall i | 0 <= i < |rest| + 1
      ensures k <= ([k] + rest)[i] < |bundled| && Merges(([model] + later)[i], bundled[([k] + rest)[i]], account)
    {
      if i > 0 {
        assert ([k] + rest)[i] == rest[i - 1] && ([model] + later)[i] == later[i - 1];
      }
    }
  }

  lemma MissesStill(account: seq<Model>, bundled: seq<Model>, k: nat, rest: seq<nat>)
    requires k < |bundled| && bundled[k].inApi && InAccount(account, bundled[k])
    requires MissesNone(account, bundled, k + 1, rest)
    ensures MissesNone(account, bundled, k, [k] + rest)
  {
    assert forall j :: j in [k] + rest <==> j == k || j in rest;
  }

  lemma IncreasesMore(k: nat, rest: seq<nat>)
    requires Increasing(rest) && forall i :: 0 <= i < |rest| ==> k < rest[i]
    ensures Increasing([k] + rest)
  {
    forall i, j | 0 <= i < j < |[k] + rest|
      ensures ([k] + rest)[i] < ([k] + rest)[j]
    {
      assert ([k] + rest)[j] == rest[j - 1];
      if i > 0 {
        assert ([k] + rest)[i] == rest[i - 1];
      }
    }
  }

  /** Merging publishes exactly the bundled entries offered over the API that
      the account has, with the bundled metadata, visible where both are, and
      the first visible one as the default; it fails when none is visible. */
  lemma BundlePublished(account: seq<Model>, bundled: seq<Model>) returns (at: seq<nat>, d: nat)
    ensures var merged, r := Intersect(account, bundled), MarkDefault(Intersect(account, bundled));
            && MergedAt(account, bundled, 0, merged, at)
            && (r.Ok? <==> exists i :: 0 <= i < |merged| && merged[i].visible)
            && (r.Ok? ==>
                  && d < |merged| && merged[d].visible && (forall i :: 0 <= i < d ==> !merged[i].visible)
                  && r.value == merged[d := merged[d].(isDefault := true)])
  {
    at := BundledMerged(account, bundled, 0);
    assert bundled[0..] == bundled;
    d := FirstVisible(Intersect(account, bundled));
  }
}
