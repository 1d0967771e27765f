/** What the launcher's scanners make of a command line, unit by unit. */
module LauncherMeaning {
  import opened Prelude
  import opened ArgUnits
  import opened LauncherArgs
  import opened LauncherRewrite
  import opened MspProviders

  // ----- the provider -----

  /** A unit about the provider, in either spelling, with or without a value. */
  predicate AboutProvider(unit: Unit) {
    (unit.Paired? && unit.option == Text("--provider"))
    || (unit.Single? && (unit.arg == Text("--provider") || StartsWith(unit.arg, "--provider=")))
  }

  predicate SaysProvider(unit: Unit, provider: PublicProvider) {
    match provider
    case Codex => unit == Paired(Text("--provider"), Text("codex")) || unit == Single(Text("--provider=codex"))
    case Zai => unit == Paired(Text("--provider"), Text("zai")) || unit == Single(Text("--provider=zai"))
  }

  lemma ProviderRead(unit: Unit)
    ensures ProviderMention(unit).Silent? <==> !AboutProvider(unit)
    ensures forall p :: ProviderMention(unit) == Says(p) <==> SaysProvider(unit, p)
  {
    if unit.Paired? {
      assert Text("codex").t[0] == 'c' && Text("zai").t[0] == 'z';
    } else if unit.Single? && unit.arg.Text? && "--provider=" <= unit.arg.t {
      PrefixSplits(unit.arg.t, "--provider=", "codex");
      PrefixSplits(unit.arg.t, "--provider=", "zai");
      assert "--provider=" + "codex" == "--provider=codex" && "--provider=" + "zai" == "--provider=zai";
    } else if unit.Single? {
      assert "--provider=" <= "--provider=codex" && "--provider=" <= "--provider=zai";
    }
  }

  lemma PrefixSplits(t: string, prefix: string, value: string)
    requires prefix <= t
    ensures t[|prefix|..] == value <==> t == prefix + value
  {
    assert t == prefix + t[|prefix|..];
  }

  /** Each unit about the provider names one, and all the same. */
  ghost predicate OneProvider(units: seq<Unit>) {
    && (forall i :: 0 <= i < |units| && AboutProvider(units[i]) ==> exists p :: SaysProvider(units[i], p))
    && forall i, j, p, q | 0 <= i < |units| && 0 <= j < |units| ::
         SaysProvider(units[i], p) && SaysProvider(units[j], q) ==> p == q
  }

  /** A line selects a provider exactly when each unit about it names one and no
      two name different ones: the one named, if any. The line left is the
      units about nothing of the kind. */
  lemma ProviderSelected(sx: Syntax, args: seq<Arg>)
    ensures var units, r := Units(sx, args), SelectProvider(sx, args);
            && (r.Some? <==> OneProvider(units))
            && (r.Some? ==>
                  && (r.value.0.None? <==> forall i :: 0 <= i < |units| ==> !AboutProvider(units[i]))
                  && (r.value.0.Some? ==> exists i :: 0 <= i < |units| && SaysProvider(units[i], r.value.0.value))
                  && Units(sx, r.value.1) == Keep(units, AboutProvider))
  {
    var units := Units(sx, args);
    forall i | 0 <= i < |units|
      ensures ProviderMention(units[i]).Silent? <==> !AboutProvider(units[i])
      ensures forall p :: ProviderMention(units[i]) == Says(p) <==> SaysProvider(units[i], p)
    {
      ProviderRead(units[i]);
    }
    ScanAgrees(units, ProviderMention, None);
    if SelectProvider(sx, args).Some? && exists i :: 0 <= i < |units| && !ProviderMention(units[i]).Silent? {
      MentionFound(units, ProviderMention);
    }
    StripFilters(sx, args, NamesProvider);
    SameKeep(units, NamesProvider, AboutProvider);
  }

  /** A scan that finds nothing bad finds something when a unit says something,
      and then what some unit says. */
  lemma MentionFound<T>(units: seq<Unit>, mention: Unit -> Mention<T>)
    requires Scan(units, mention, None).Some? && exists i :: 0 <= i < |units| && !mention(units[i]).Silent?
    ensures Scan(units, mention, None).value.Some?
    ensures exists i :: 0 <= i < |units| && mention(units[i]) == Says(Scan(units, mention, None).value.value)
  {
    ScanAgrees(units, mention, None);
    var i :| 0 <= i < |units| && !mention(units[i]).Silent?;
    assert mention(units[i]).Says?;
  }

  // ----- the base URL -----

  predicate AboutUrl(unit: Unit) {
    (unit.Paired? && unit.option == Text("--base-url"))
    || (unit.Single? && (unit.arg == Text("--base-url") || StartsWith(unit.arg, "--base-url=")))
  }

  /** A unit that gives the URL: not empty, and when apart, not like an option. */
  predicate SaysUrl(unit: Unit, url: Arg) {
    (unit == Paired(Text("--base-url"), url) && url != Text("") && !OptionLike(url))
    || (unit.Single? && url.Text? && url.t != "" && unit.arg == Text("--base-url=" + url.t))
  }

  lemma UrlRead(unit: Unit)
    ensures UrlMention(unit).Silent? <==> !AboutUrl(unit)
    ensures forall url :: UrlMention(unit) == Says(url) <==> SaysUrl(unit, url)
  {
    forall url
      ensures UrlMention(unit) == Says(url) <==> SaysUrl(unit, url)
    {
      if unit.Single? && unit.arg.Text? && url.Text? && "--base-url=" <= unit.arg.t {
        PrefixSplits(unit.arg.t, "--base-url=", url.t);
      }
      if unit.Single? && url.Text? {
        assert "--base-url=" <= "--base-url=" + url.t;
      }
    }
  }

  ghost predicate OneUrl(units: seq<Unit>) {
    && (forall i :: 0 <= i < |units| && AboutUrl(units[i]) ==> exists url :: SaysUrl(units[i], url))
    && forall i, j, a, b | 0 <= i < |units| && 0 <= j < |units| :: SaysUrl(units[i], a) && SaysUrl(units[j], b) ==>
         a == b
  }

  /** What the command line and the environment come to. */
  function Resolved(sx: Syntax, args: seq<Arg>, environment: Option<Arg>): Option<Option<Arg>> {
    match Scan(Units(sx, args), UrlMention, None)
    case None => None
    case Some(cli) => ResolveUrl(cli, environment)
  }

  /** The URL resolves exactly when each unit about it gives one, all the same,
      and a non-empty one of the environment is no other: to the one given, on
      the line or in the environment. */
  lemma UrlResolved(sx: Syntax, args: seq<Arg>, environment: Option<Arg>)
    ensures var units, r := Units(sx, args), Resolved(sx, args, environment);
            var given := environment.Some? && environment.value != Text("");
            && (r.Some? <==>
                  && OneUrl(units)
                  && (given ==> forall i, url :: 0 <= i < |units| && SaysUrl(units[i], url) ==>
                        url == environment.value))
            && (r.Some? ==>
                  && (r.value.None? <==> !given && forall i :: 0 <= i < |units| ==> !AboutUrl(units[i]))
                  && (given ==> r.value == environment)
                  && (r.value.Some? && !given ==> exists i :: 0 <= i < |units| && SaysUrl(units[i], r.value.value)))
  {
    var units := Units(sx, args);
    forall i | 0 <= i < |units|
      ensures UrlMention(units[i]).Silent? <==> !AboutUrl(units[i])
      ensures forall url :: UrlMention(units[i]) == Says(url) <==> SaysUrl(units[i], url)
    {
      UrlRead(units[i]);
    }
    ScanAgrees(units, UrlMention, None);
    if Scan(units, UrlMention, None).Some? && exists i :: 0 <= i < |units| && !UrlMention(units[i]).Silent? {
      MentionFound(units, UrlMention);
    }
  }

  // ----- the subcommand -----

  /** A unit before the subcommand: an option, with or without its value, or the
      mode that follows a worktree option. */
  predicate Skips(sx: Syntax, units: seq<Unit>, j: nat)
    requires j < |units|
  {
    units[j].Paired? ||
    (units[j].Single?
     && (OptionLike(units[j].arg)
         || (j > 0 && units[j - 1].Single? && sx.worktree(units[j - 1].arg) && sx.worktreeMode(units[j].arg))))
  }

  /** The first unit that is not skipped, if it is a subcommand. */
  predicate IsSubcommand(sx: Syntax, units: seq<Unit>, k: nat) {
    && k < |units| && (forall j :: 0 <= j < k ==> Skips(sx, units, j)) && !Skips(sx, units, k)
    && units[k].Single? && sx.subcommand(units[k].arg)
  }

  lemma SkipsOn(sx: Syntax, unit: Unit, rest: seq<Unit>, j: nat)
    requires j < |rest|
    requires j == 0 ==> !(unit.Single? && sx.worktree(unit.arg) && rest[0].Single? && sx.worktreeMode(rest[0].arg))
    ensures Skips(sx, [unit] + rest, j + 1) <==> Skips(sx, rest, j)
  {
  }

  /** Past a unit that is skipped, and starts no worktree mode. */
  lemma SubcommandPast(sx: Syntax, unit: Unit, rest: seq<Unit>, k: nat)
    requires Skips(sx, [unit] + rest, 0)
    requires rest != [] ==> !(unit.Single? && sx.worktree(unit.arg) && rest[0].Single? && sx.worktreeMode(rest[0].arg))
    ensures IsSubcommand(sx, [unit] + rest, k + 1) <==> IsSubcommand(sx, rest, k)
    ensures !IsSubcommand(sx, [unit] + rest, 0)
  {
    var all := [unit] + rest;
    forall j | 0 <= j < |rest|
      ensures Skips(sx, all, j + 1) <==> Skips(sx, rest, j)
    {
      SkipsOn(sx, unit, rest, j);
    }
    if IsSubcommand(sx, all, k + 1) {
      forall j | 0 <= j < k
        ensures Skips(sx, rest, j)
      {
        assert Skips(sx, all, j + 1);
      }
    }
    if IsSubcommand(sx, rest, k) {
      forall j | 0 <= j < k + 1
        ensures Skips(sx, all, j)
      {
        if j > 0 {
          assert Skips(sx, rest, j - 1);
        }
      }
    }
  }

  lemma FlatPast(unit: Unit, rest: seq<Unit>, k: nat)
    requires k <= |rest|
    ensures |Flat(([unit] + rest)[..k + 1])| == |ArgsOf(unit)| + |Flat(rest[..k])|
  {
    assert ([unit] + rest)[..k + 1] == [unit] + rest[..k];
    assert ([unit] + rest[..k])[1..] == rest[..k];
  }

  /** The place of unit `k` among the arguments. */
  function PlaceOf(units: seq<Unit>, k: nat): nat
    requires k <= |units|
  {
    |Flat(units[..k])|
  }

  ghost predicate FoundAt(sx: Syntax, units: seq<Unit>, found: Option<nat>) {
    && (found.Some? ==> exists k: nat :: IsSubcommand(sx, units, k) && PlaceOf(units, k) == found.value)
    && (forall k: nat :: IsSubcommand(sx, units, k) ==> found == Some(PlaceOf(units, k)))
  }

  lemma FoundPast(sx: Syntax, unit: Unit, rest: seq<Unit>, found: Option<nat>)
    requires FoundAt(sx, rest, found) && Skips(sx, [unit] + rest, 0)
    requires rest != [] ==> !(unit.Single? && sx.worktree(unit.arg) && rest[0].Single? && sx.worktreeMode(rest[0].arg))
    ensures FoundAt(sx, [unit] + rest, Beyond(|ArgsOf(unit)|, found))
  {
    var all := [unit] + rest;
    forall k: nat
      ensures IsSubcommand(sx, all, k + 1) <==> IsSubcommand(sx, rest, k)
      ensures !IsSubcommand(sx, all, 0)
    {
      SubcommandPast(sx, unit, rest, k);
    }
    if found.Some? {
      var k: nat :| IsSubcommand(sx, rest, k) && PlaceOf(rest, k) == found.value;
      FlatPast(unit, rest, k);
      assert IsSubcommand(sx, all, k + 1);
    }
    forall k: nat | IsSubcommand(sx, all, k)
      ensures Beyond(|ArgsOf(unit)|, found) == Some(PlaceOf(all, k))
    {
      assert k > 0 && IsSubcommand(sx, rest, k - 1);
      FlatPast(unit, rest, k - 1);
    }
  }

  lemma NothingFound(sx: Syntax, units: seq<Unit>)
    requires units == [] || (!Skips(sx, units, 0) && !(units[0].Single? && sx.subcommand(units[0].arg)))
    ensures FoundAt(sx, units, None)
  {
  }

  lemma FoundHere(sx: Syntax, units: seq<Unit>)
    requires units != [] && !Skips(sx, units, 0) && units[0].Single? && sx.subcommand(units[0].arg)
    ensures FoundAt(sx, units, Some(0))
  {
    assert IsSubcommand(sx, units, 0) && PlaceOf(units, 0) == 0;
    forall k: nat | IsSubcommand(sx, units, k)
      ensures k == 0
    {
      OneSubcommand(sx, units, 0, k);
    }
  }

  /** The scanners find the subcommand where it stands: the first unit that is no
      option, no value of one and no worktree mode, if it is a subcommand. */
  lemma {:induction false} SubcommandFound(sx: Syntax, args: seq<Arg>)
    requires Sensible(sx)
    ensures FoundAt(sx, Units(sx, args), SubcommandAt(sx, args))
    decreases |args|
  {
    var units := Units(sx, args);
    if args == [] || args[0] == DASHES {
      NothingFound(sx, units);
    } else if sx.takesValue(args[0]) && |args| > 1 {
      SubcommandFound(sx, args[2..]);
      FoundPast(sx, Paired(args[0], args[1]), Units(sx, args[2..]), SubcommandAt(sx, args[2..]));
    } else if sx.takesValue(args[0]) {
      assert Units(sx, args[1..]) == [] && units == [Single(args[0])];
      NothingFound(sx, []);
      FoundPast(sx, Single(args[0]), [], None);
    } else if sx.worktree(args[0]) && |args| > 1 && sx.worktreeMode(args[1]) {
      SubcommandFound(sx, args[2..]);
      WorktreeFound(sx, args);
    } else if OptionLike(args[0]) {
      SubcommandFound(sx, args[1..]);
      RestUnit(sx, args[1..]);
      FoundPast(sx, Single(args[0]), Units(sx, args[1..]), SubcommandAt(sx, args[1..]));
    } else if sx.subcommand(args[0]) {
      FoundHere(sx, units);
    } else {
      NothingFound(sx, units);
    }
  }

  lemma RestUnit(sx: Syntax, args: seq<Arg>)
    ensures var units := Units(sx, args); units != [] && units[0].Single? ==> args != [] && units[0].arg == args[0]
  {
  }

  lemma WorktreeFound(sx: Syntax, args: seq<Arg>)
    requires Sensible(sx) && |args| > 1 && args[0] != DASHES && !sx.takesValue(args[0])
    requires sx.worktree(args[0]) && sx.worktreeMode(args[1])
    requires FoundAt(sx, Units(sx, args[2..]), SubcommandAt(sx, args[2..]))
    ensures FoundAt(sx, Units(sx, args), SubcommandAt(sx, args))
  {
    var option, mode, rest := Single(args[0]), Single(args[1]), Units(sx, args[2..]);
    assert args[1..][1..] == args[2..];
    assert Units(sx, args[1..]) == [mode] + rest && Units(sx, args) == [option] + ([mode] + rest);
    ModePast(sx, option, mode, rest, SubcommandAt(sx, args[2..]));
  }

  /** A worktree option and its mode are skipped together. */
  lemma ModePast(sx: Syntax, option: Unit, mode: Unit, rest: seq<Unit>, found: Option<nat>)
    requires Sensible(sx) && option.Single? && mode.Single? && sx.worktree(option.arg) && sx.worktreeMode(mode.arg)
    requires FoundAt(sx, rest, found)
    ensures FoundAt(sx, [option] + ([mode] + rest), Beyond(2, found))
  {
    var all := [option] + ([mode] + rest);
    forall k: nat
      ensures IsSubcommand(sx, all, k + 2) <==> IsSubcommand(sx, rest, k)
      ensures !IsSubcommand(sx, all, 0) && !IsSubcommand(sx, all, 1)
    {
      ModePastAt(sx, option, mode, rest, k);
    }
    if found.Some? {
      var k: nat :| IsSubcommand(sx, rest, k) && PlaceOf(rest, k) == found.value;
      FlatPast(mode, rest, k);
      FlatPast(option, [mode] + rest, k + 1);
      assert IsSubcommand(sx, all, k + 2);
    }
    forall k: nat | IsSubcommand(sx, all, k)
      ensures Beyond(2, found) == Some(PlaceOf(all, k))
    {
      assert k > 1 && IsSubcommand(sx, rest, k - 2);
      FlatPast(mode, rest, k - 2);
      FlatPast(option, [mode] + rest, k - 1);
    }
  }

  lemma ModePastAt(sx: Syntax, option: Unit, mode: Unit, rest: seq<Unit>, k: nat)
    requires Sensible(sx) && option.Single? && mode.Single? && sx.worktree(option.arg) && sx.worktreeMode(mode.arg)
    ensures var all := [option] + ([mode] + rest);
            && (IsSubcommand(sx, all, k + 2) <==> IsSubcommand(sx, rest, k))
            && !IsSubcommand(sx, all, 0) && !IsSubcommand(sx, all, 1)
  {
    var all := [option] + ([mode] + rest);
    assert Skips(sx, all, 0) && Skips(sx, all, 1);
    forall j | 0 <= j < |rest|
      ensures Skips(sx, all, j + 2) <==> Skips(sx, rest, j)
    {
      assert all[j + 2] == rest[j] && (j > 0 ==> all[j + 1] == rest[j - 1]) && all[1] == mode;
    }
    if IsSubcommand(sx, all, k + 2) {
      forall j | 0 <= j < k
        ensures Skips(sx, rest, j)
      {
        assert Skips(sx, all, j + 2);
      }
    }
    if IsSubcommand(sx, rest, k) {
      forall j | 0 <= j < k + 2
        ensures Skips(sx, all, j)
      {
        if j > 1 {
          assert Skips(sx, rest, j - 2);
        }
      }
    }
  }

  // ----- what stock Muse gets -----

  predicate AboutRouting(unit: Unit) { AboutProvider(unit) || AboutUrl(unit) }

  lemma RoutesIsAbout(unit: Unit)
    ensures Routes(unit) <==> AboutRouting(unit)
  {
    ProviderRead(unit);
    UrlRead(unit);
  }

  lemma {:induction false} PlacesGrow(units: seq<Unit>, k: nat, l: nat)
    requires k < l <= |units| && forall i :: 0 <= i < |units| ==> ArgsOf(units[i]) != []
    ensures PlaceOf(units, k) < PlaceOf(units, l)
  {
    FlatAppend(units[..k], units[k..l]);
    assert units[..l] == units[..k] + units[k..l];
    assert units[k..l][0] == units[k];
  }

  lemma {:induction false} UnitsHaveArgs(sx: Syntax, args: seq<Arg>)
    ensures forall i :: 0 <= i < |Units(sx, args)| ==> ArgsOf(Units(sx, args)[i]) != []
    decreases |args|
  {
    if args != [] && args[0] != DASHES {
      UnitsHaveArgs(sx, if sx.takesValue(args[0]) && |args| > 1 then args[2..] else args[1..]);
    }
  }

  /** The unit that stands at the subcommand's place is the subcommand. */
  lemma StandsAsSubcommand(sx: Syntax, args: seq<Arg>, k: nat)
    requires Sensible(sx) && SubcommandAt(sx, args).Some? && Stands(sx, args, SubcommandAt(sx, args).value, k)
    ensures IsSubcommand(sx, Units(sx, args), k)
  {
    var units, i := Units(sx, args), SubcommandAt(sx, args).value;
    SubcommandFound(sx, args);
    UnitsHaveArgs(sx, args);
    var l: nat :| IsSubcommand(sx, units, l) && PlaceOf(units, l) == i;
    if l < k {
      PlacesGrow(units, l, k);
    } else if k < l {
      PlacesGrow(units, k, l);
    }
  }

  /** The launcher's own provider and base URL. */
  function OwnRouting(url: Arg): seq<Unit> {
    [Paired(Text("--provider"), Text("meta")), Paired(Text("--base-url"), url)]
  }

  /** `units` with the routing put where stock Muse takes it: first; or after
      the subcommand, which goes first, if that is `exec` or `resume`; or not
      at all for another. */
  ghost predicate RoutedTo(sx: Syntax, units: seq<Unit>, url: Arg, result: seq<Unit>) {
    if k: nat :| IsSubcommand(sx, units, k) then
      var takes := units[k] == Single(Text("exec")) || units[k] == Single(Text("resume"));
      result == [units[k]] + ((if takes then OwnRouting(url) else []) + (units[..k] + units[k + 1..]))
    else result == OwnRouting(url) + units
  }

  lemma OneSubcommand(sx: Syntax, units: seq<Unit>, k: nat, l: nat)
    requires IsSubcommand(sx, units, k) && IsSubcommand(sx, units, l)
    ensures k == l
  {
  }

  /** A line whose mentions of provider and base URL are in order reaches stock
      Muse without them, with the launcher's own where they belong. */
  lemma LineRouted(sx: Syntax, args: seq<Arg>, url: Arg)
    requires Launcher(sx) && OneProvider(Units(sx, args)) && OneUrl(Units(sx, args))
    ensures RoutedTo(sx, Keep(Units(sx, args), AboutRouting), url,
                     Units(sx, Routed(sx, Strip(sx, args, Routing), url)))
  {
    var units, kept := Units(sx, args), Strip(sx, args, Routing);
    ProviderSelected(sx, args);
    UrlResolved(sx, args, None);
    AcceptedDropsRoutes(sx, args);
    StripFilters(sx, args, Routing);
    forall i | 0 <= i < |units|
      ensures Routes(units[i]) == AboutRouting(units[i])
    {
      RoutesIsAbout(units[i]);
    }
    SameKeep(units, Routes, AboutRouting);
    SubcommandFound(sx, kept);
    if SubcommandAt(sx, kept).Some? {
      var k := RoutedWith(sx, kept, url);
      StandsAsSubcommand(sx, kept, k);
      RoutedAfter(sx, Units(sx, kept), url, k, Units(sx, Routed(sx, kept, url)));
    } else {
      RoutedWithout(sx, kept, url);
    }
  }

  lemma RoutedAfter(sx: Syntax, units: seq<Unit>, url: Arg, k: nat, result: seq<Unit>)
    requires IsSubcommand(sx, units, k)
    requires result == [units[k]] + ((if NeedsRouting(units[k].arg) then RoutingUnits(url) else [])
                                     + (units[..k] + units[k + 1..]))
    ensures RoutedTo(sx, units, url, result)
  {
    forall l: nat | IsSubcommand(sx, units, l)
      ensures l == k
    {
      OneSubcommand(sx, units, k, l);
    }
  }
}
