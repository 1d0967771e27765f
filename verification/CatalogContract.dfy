/** The launcher's check of a published catalog, and why every catalog the
    gateway publishes passes it. */
module CatalogContract {
  import opened Prelude
  import opened Catalog
  import opened StableSort

  // ----- the launcher's check -----

  predicate GoodEffort(c: Chars, effort: string) { effort != "" && |effort| <= 64 && !c.blank(effort) }

  predicate GoodEfforts(c: Chars, efforts: seq<string>) {
    && |efforts| <= 32
    && (forall i :: 0 <= i < |efforts| ==> GoodEffort(c, efforts[i]))
    && (forall i, j :: 0 <= i < j < |efforts| ==> efforts[i] != efforts[j])
  }

  predicate GoodLimit(limit: Option<nat>) { limit.Some? ==> 0 < limit.value <= I64_MAX }

  predicate GoodFields(c: Chars, m: Model) {
    && ValidId(c, m.id)
    && (m.displayName.Some? ==>
          m.displayName.value != "" && |m.displayName.value| <= 512 && !c.control(m.displayName.value))
    && (m.description.Some? ==> |m.description.value| <= 16 * 1024 && '\0' !in m.description.value)
    && GoodLimit(m.contextWindow) && GoodLimit(m.maxOutputTokens)
    && GoodEfforts(c, m.efforts)
    && (m.defaultEffort.Some? ==> m.defaultEffort.value in m.efforts)
  }

  /** The model at `d` is the one default: the only one marked, visible, and
      named as such. */
  predicate OneDefault(models: seq<Model>, d: nat, name: string) {
    && d < |models| && models[d].isDefault && models[d].visible && models[d].id == name
    && forall i :: 0 <= i < |models| && i != d ==> !models[i].isDefault
  }

  /** The catalogs the launcher accepts. */
  ghost predicate Acceptable(c: Chars, models: seq<Model>, name: string) {
    && models != [] && |models| <= MAX_MODELS
    && (forall i :: 0 <= i < |models| ==> GoodFields(c, models[i]))
    && DistinctIds(models)
    && exists d :: OneDefault(models, d, name)
  }

  method ValidateEfforts(c: Chars, efforts: seq<string>) returns (ok: bool)
    ensures ok <==> GoodEfforts(c, efforts)
  {
    if |efforts| > 32 {
      return false;
    }
    var seen: set<string> := {};
    for i := 0 to |efforts|
      invariant forall s :: s in seen <==> s in efforts[..i]
      invariant forall j :: 0 <= j < i ==> GoodEffort(c, efforts[j])
      invariant forall j, k :: 0 <= j < k < i ==> efforts[j] != efforts[k]
    {
      if efforts[i] == "" || |efforts[i]| > 64 || c.blank(efforts[i]) || efforts[i] in seen {
        return false;
      }
      seen := seen + {efforts[i]};
    }
    return true;
  }

  method ValidateFields(c: Chars, m: Model) returns (ok: bool)
    ensures ok <==> GoodFields(c, m)
  {
    if !ValidId(c, m.id) {
      return false;
    }
    if m.displayName.Some?
       && (m.displayName.value == "" || |m.displayName.value| > 512 || c.control(m.displayName.value)) {
      return false;
    }
    if m.description.Some? && (|m.description.value| > 16 * 1024 || '\0' in m.description.value) {
      return false;
    }
    if m.contextWindow.Some? && (m.contextWindow.value == 0 || m.contextWindow.value > I64_MAX) {
      return false;
    }
    if m.maxOutputTokens.Some? && (m.maxOutputTokens.value == 0 || m.maxOutputTokens.value > I64_MAX) {
      return false;
    }
    var efforts := ValidateEfforts(c, m.efforts);
    return efforts && (m.defaultEffort.Some? ==> m.defaultEffort.value in m.efforts);
  }

  // ----- the check, model by model -----

  predicate FieldsUpTo(c: Chars, models: seq<Model>, n: nat)
    requires n <= |models|
  {
    n == 0 || (FieldsUpTo(c, models, n - 1) && GoodFields(c, models[n - 1]))
  }

  function IdsUpTo(models: seq<Model>, n: nat): set<string>
    requires n <= |models|
  {
    if n == 0 then {} else IdsUpTo(models, n - 1) + {models[n - 1].id}
  }

  predicate DistinctUpTo(models: seq<Model>, n: nat)
    requires n <= |models|
  {
    n == 0 || (DistinctUpTo(models, n - 1) && models[n - 1].id !in IdsUpTo(models, n - 1))
  }

  /** Each marked model is visible and has the default's name. */
  predicate MarksFit(models: seq<Model>, n: nat, name: string)
    requires n <= |models|
  {
    n == 0
    || (MarksFit(models, n - 1, name)
        && (models[n - 1].isDefault ==> models[n - 1].visible && models[n - 1].id == name))
  }

  function Marked(models: seq<Model>, n: nat): nat
    requires n <= |models|
  {
    if n == 0 then 0 else Marked(models, n - 1) + if models[n - 1].isDefault then 1 else 0
  }

  function VisibleUpTo(models: seq<Model>, n: nat): nat
    requires n <= |models|
  {
    if n == 0 then 0 else VisibleUpTo(models, n - 1) + if models[n - 1].visible then 1 else 0
  }

  predicate Passes(c: Chars, models: seq<Model>, name: string) {
    var n := |models|;
    && models != [] && n <= MAX_MODELS
    && FieldsUpTo(c, models, n) && DistinctUpTo(models, n) && MarksFit(models, n, name)
    && VisibleUpTo(models, n) != 0 && Marked(models, n) == 1
  }

  lemma {:induction false} ChecksAccumulate(c: Chars, models: seq<Model>, name: string, n: nat, m: nat)
    requires n <= m <= |models|
    ensures FieldsUpTo(c, models, m) ==> FieldsUpTo(c, models, n)
    ensures DistinctUpTo(models, m) ==> DistinctUpTo(models, n)
    ensures MarksFit(models, m, name) ==> MarksFit(models, n, name)
    decreases m
  {
    if n < m {
      ChecksAccumulate(c, models, name, n, m - 1);
    }
  }

  method CheckModels(c: Chars, models: seq<Model>, name: string) returns (ok: bool)
    ensures ok <==> Passes(c, models, name)
  {
    if models == [] || |models| > MAX_MODELS {
      return false;
    }
    var ids: set<string>, matchingDefault: nat, visible: nat := {}, 0, 0;
    for i := 0 to |models|
      invariant FieldsUpTo(c, models, i) && DistinctUpTo(models, i) && MarksFit(models, i, name)
      invariant ids == IdsUpTo(models, i) && matchingDefault == Marked(models, i) && visible == VisibleUpTo(models, i)
    {
      ChecksAccumulate(c, models, name, i + 1, |models|);
      var good := ValidateFields(c, models[i]);
      if !good {
        return false;
      }
      if models[i].id in ids {
        return false;
      }
      ids := ids + {models[i].id};
      if models[i].visible {
        visible := visible + 1;
      }
      if models[i].isDefault {
        if !models[i].visible || models[i].id != name {
          return false;
        }
        matchingDefault := matchingDefault + 1;
      }
    }
    return visible != 0 && matchingDefault == 1;
  }

  lemma {:induction false} FieldsMean(c: Chars, models: seq<Model>, n: nat)
    requires n <= |models|
    ensures FieldsUpTo(c, models, n) <==> forall i :: 0 <= i < n ==> GoodFields(c, models[i])
  {
    if n > 0 {
      FieldsMean(c, models, n - 1);
    }
  }

  lemma {:induction false} IdsMean(models: seq<Model>, n: nat, id: string)
    requires n <= |models|
    ensures id in IdsUpTo(models, n) <==> exists i :: 0 <= i < n && models[i].id == id
  {
    if n > 0 {
      IdsMean(models, n - 1, id);
    }
  }

  lemma {:induction false} DistinctMeans(models: seq<Model>, n: nat)
    requires n <= |models|
    ensures DistinctUpTo(models, n) <==> forall i, j :: 0 <= i < j < n ==> models[i].id != models[j].id
  {
    if n > 0 {
      DistinctMeans(models, n - 1);
      IdsMean(models, n - 1, models[n - 1].id);
    }
  }

  lemma {:induction false} MarksMean(models: seq<Model>, n: nat, name: string)
    requires n <= |models|
    ensures MarksFit(models, n, name)
            <==> forall i :: 0 <= i < n && models[i].isDefault ==> models[i].visible && models[i].id == name
  {
    if n > 0 {
      MarksMean(models, n - 1, name);
    }
  }

  lemma {:induction false} NoneMarked(models: seq<Model>, n: nat)
    requires n <= |models|
    ensures Marked(models, n) == 0 <==> forall i :: 0 <= i < n ==> !models[i].isDefault
  {
    if n > 0 {
      NoneMarked(models, n - 1);
    }
  }

  predicate OnlyMark(models: seq<Model>, n: nat, d: nat)
    requires n <= |models|
  {
    d < n && models[d].isDefault && forall i :: 0 <= i < n && i != d ==> !models[i].isDefault
  }

  lemma {:induction false} OneMarked(models: seq<Model>, n: nat)
    requires n <= |models|
    ensures Marked(models, n) == 1 <==> exists d :: OnlyMark(models, n, d)
  {
    if n > 0 {
      OneMarked(models, n - 1);
      NoneMarked(models, n - 1);
      if Marked(models, n) == 1 {
        if models[n - 1].isDefault {
          assert OnlyMark(models, n, n - 1);
        } else {
          var d :| OnlyMark(models, n - 1, d);
          assert OnlyMark(models, n, d);
        }
      }
      if d: nat :| OnlyMark(models, n, d) {
        if d < n - 1 {
          assert OnlyMark(models, n - 1, d);
        }
      }
    }
  }

  lemma {:induction false} SomeVisible(models: seq<Model>, n: nat, d: nat)
    requires d < n <= |models| && models[d].visible
    ensures VisibleUpTo(models, n) != 0
  {
    if d < n - 1 {
      SomeVisible(models, n - 1, d);
    }
  }

  lemma PassingIsAcceptable(c: Chars, models: seq<Model>, name: string)
    ensures Passes(c, models, name) <==> Acceptable(c, models, name)
  {
    var n := |models|;
    FieldsMean(c, models, n);
    DistinctMeans(models, n);
    MarksMean(models, n, name);
    OneMarked(models, n);
    if Passes(c, models, name) {
      var d :| OnlyMark(models, n, d);
      assert OneDefault(models, d, name);
    }
    if Acceptable(c, models, name) {
      var d :| OneDefault(models, d, name);
      assert OnlyMark(models, n, d);
      SomeVisible(models, n, d);
    }
  }

  /** The launcher's check accepts exactly the acceptable catalogs. */
  method ValidateGatewayModels(c: Chars, models: seq<Model>, name: string) returns (ok: bool)
    ensures ok <==> Acceptable(c, models, name)
  {
    PassingIsAcceptable(c, models, name);
    ok := CheckModels(c, models, name);
  }

  // ----- what the gateway publishes -----

  lemma EffortsAreShort(c: Chars, effort: string)
    requires Lawful(c) && IsEffort(effort)
    ensures GoodEffort(c, effort)
  {
    assert Graphic(effort);
  }

  lemma {:induction false} KeptEfforts(levels: seq<string>)
    ensures forall i :: 0 <= i < |KeepEfforts(levels)| ==> IsEffort(KeepEfforts(levels)[i])
    ensures forall i, j :: 0 <= i < j < |KeepEfforts(levels)| ==> KeepEfforts(levels)[i] != KeepEfforts(levels)[j]
  {
    if levels != [] {
      KeptEfforts(levels[..|levels| - 1]);
    }
  }

  lemma {:induction false} DistinctWithin(kept: seq<string>, all: set<string>)
    requires forall i :: 0 <= i < |kept| ==> kept[i] in all
    requires forall i, j :: 0 <= i < j < |kept| ==> kept[i] != kept[j]
    ensures |kept| <= |all|
  {
    if kept != [] {
      var last := kept[|kept| - 1];
      DistinctWithin(kept[..|kept| - 1], all - {last});
      assert |all - {last}| == |all| - 1;
    }
  }

  lemma {:induction false} SetOfSeq(s: seq<string>)
    ensures |set x | x in s| <= |s|
  {
    if s == [] {
      assert (set x | x in s) == {};
    } else {
      var front, last := s[..|s| - 1], s[|s| - 1];
      SetOfSeq(front);
      assert (set x | x in s) == (set x | x in front) + {last};
    }
  }

  lemma KeptEffortsAreGood(c: Chars, levels: seq<string>)
    requires Lawful(c)
    ensures GoodEfforts(c, KeepEfforts(levels))
  {
    var kept := KeepEfforts(levels);
    KeptEfforts(levels);
    DistinctWithin(kept, set x | x in EFFORTS);
    SetOfSeq(EFFORTS);
    forall i | 0 <= i < |kept|
      ensures GoodEffort(c, kept[i])
    {
      EffortsAreShort(c, kept[i]);
    }
  }

  /** The upstream's limits are 64-bit integers. */
  predicate Decoded(m: Upstream) {
    (m.contextWindow.Some? ==> m.contextWindow.value <= I64_MAX)
    && (m.maxOutputTokens.Some? ==> m.maxOutputTokens.value <= I64_MAX)
  }

  lemma NormalizedFields(c: Chars, client: (nat, nat, nat), m: Upstream)
    requires Lawful(c) && Decoded(m) && ValidId(c, m.slug) && NormalizeModel(c, client, m).Ok?
    ensures var model := NormalizeModel(c, client, m).value;
            GoodFields(c, model) && model.id == m.slug && !model.isDefault
  {
    KeptEffortsAreGood(c, m.efforts);
  }

  /** Good entries, distinct ids, none marked yet. */
  ghost predicate Unmarked(c: Chars, models: seq<Model>) {
    && (forall i :: 0 <= i < |models| ==> GoodFields(c, models[i]) && !models[i].isDefault)
    && DistinctIds(models)
  }

  lemma UnmarkedAppend(c: Chars, models: seq<Model>, model: Model)
    requires Unmarked(c, models) && GoodFields(c, model) && !model.isDefault && model.id !in Ids(models)
    ensures Unmarked(c, models + [model])
  {
    assert forall i :: 0 <= i < |models| ==> models[i].id in Ids(models);
  }

  lemma {:induction false} ExtendedIsUnmarked(c: Chars, client: (nat, nat, nat), models: seq<Model>,
                                              more: seq<Upstream>)
    requires Lawful(c) && Unmarked(c, models) && (forall i :: 0 <= i < |more| ==> Decoded(more[i]))
    requires ExtendAll(c, client, models, more).Ok?
    ensures var all := ExtendAll(c, client, models, more).value;
            Unmarked(c, all) && |all| == |models| + |more|
    decreases |more|
  {
    if more != [] {
      NormalizedFields(c, client, more[0]);
      var model := NormalizeModel(c, client, more[0]).value;
      UnmarkedAppend(c, models, model);
      ExtendedIsUnmarked(c, client, models + [model], more[1..]);
    }
  }

  lemma MarkedIsAcceptable(c: Chars, models: seq<Model>)
    requires Unmarked(c, models) && |models| <= MAX_MODELS && MarkDefault(models).Ok?
    ensures var marked := MarkDefault(models).value;
            var d := FirstVisible(models);
            d < |marked| && OneDefault(marked, d, marked[d].id) && Acceptable(c, marked, marked[d].id)
            && forall i :: 0 <= i < d ==> !marked[i].visible
  {
    var d := FirstVisible(models);
    var marked := MarkDefault(models).value;
    assert GoodFields(c, models[d]);
    assert OneDefault(marked, d, marked[d].id);
  }

  lemma SortKeepsLength(models: seq<Upstream>)
    ensures |SortByPriority(models)| == |models|
  {
    SortKeeps(models, (m: Upstream) => m.priority);
    assert |multiset(SortByPriority(models))| == |SortByPriority(models)| && |multiset(models)| == |models|;
  }

  lemma SortedAreDecoded(models: seq<Upstream>)
    requires forall i :: 0 <= i < |models| ==> Decoded(models[i])
    ensures forall i :: 0 <= i < |SortByPriority(models)| ==> Decoded(SortByPriority(models)[i])
  {
    SortKeeps(models, (m: Upstream) => m.priority);
    var sorted := SortByPriority(models);
    forall i | 0 <= i < |sorted|
      ensures Decoded(sorted[i])
    {
      assert sorted[i] in multiset(sorted);
      assert sorted[i] in multiset(models);
      assert sorted[i] in models;
    }
  }

  /** Every catalog the gateway normalizes has one default, its first visible
      model, and passes the launcher's check with that default. */
  lemma PublishedCatalogAccepted(c: Chars, client: (nat, nat, nat), subscription: seq<Upstream>, api: seq<Upstream>)
    returns (d: nat)
    requires Lawful(c) && Normalize(c, client, subscription, api).Ok?
    requires forall i :: 0 <= i < |subscription| ==> Decoded(subscription[i])
    requires forall i :: 0 <= i < |api| ==> Decoded(api[i])
    ensures var models := Normalize(c, client, subscription, api).value;
            && d < |models| && OneDefault(models, d, models[d].id) && Acceptable(c, models, models[d].id)
            && forall i :: 0 <= i < d ==> !models[i].visible
  {
    SortedAreDecoded(subscription);
    SortKeepsLength(subscription);
    var listed := if subscription != [] then SortByPriority(subscription) else api;
    ExtendedIsUnmarked(c, client, [], listed);
    var models := ExtendAll(c, client, [], listed).value;
    MarkedIsAcceptable(c, models);
    d := FirstVisible(models);
  }

  // ----- the bundled intersection -----

  lemma {:induction false} IntersectionIsUnmarked(c: Chars, available: seq<Model>, bundled: seq<Model>)
    requires forall i :: 0 <= i < |bundled| ==> GoodFields(c, bundled[i])
    requires DistinctIds(bundled)
    ensures var merged := Intersect(available, bundled);
            && Unmarked(c, merged) && |merged| <= |bundled|
            && forall i :: 0 <= i < |merged| ==> exists j :: 0 <= j < |bundled| && bundled[j].id == merged[i].id
    decreases |bundled|
  {
    if bundled != [] {
      var rest, i := bundled[1..], Find(available, bundled[0].id);
      DistinctRest(bundled);
      assert forall j :: 0 <= j < |rest| ==> rest[j] == bundled[j + 1];
      IntersectionIsUnmarked(c, available, rest);
      var later := Intersect(available, rest);
      if i < |available| && bundled[0].inApi {
        var model := Both(bundled[0], available[i]);
        PrependUnmarked(c, model, later);
      }
    }
  }

  lemma PrependUnmarked(c: Chars, model: Model, later: seq<Model>)
    requires Unmarked(c, later) && GoodFields(c, model) && !model.isDefault
    requires forall i :: 0 <= i < |later| ==> later[i].id != model.id
    ensures Unmarked(c, [model] + later)
  {
  }

  /** The bundled catalog narrowed to an account's models passes too. */
  lemma MergedCatalogAccepted(c: Chars, account: seq<Model>, bundled: seq<Model>, name: string) returns (d: nat)
    requires Acceptable(c, bundled, name) && MarkDefault(Intersect(account, bundled)).Ok?
    ensures var models := MarkDefault(Intersect(account, bundled)).value;
            && d < |models| && OneDefault(models, d, models[d].id) && Acceptable(c, models, models[d].id)
            && forall i :: 0 <= i < d ==> !models[i].visible
  {
    var merged := Intersect(account, bundled);
    IntersectionIsUnmarked(c, account, bundled);
    MarkedIsAcceptable(c, merged);
    d := FirstVisible(merged);
  }
}
