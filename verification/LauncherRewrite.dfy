/** What the launcher hands to stock Muse: its own routing in place of the
    user's, with any subcommand first. */
module LauncherRewrite {
  import opened Prelude
  import opened ArgUnits
  import opened LauncherArgs
  import opened MspProviders

  // ----- the subcommand -----

  /** Where the stock subcommand stands: the first argument that is neither an
      option nor the value of one, if it is a subcommand at all. */
  function SubcommandAt(sx: Syntax, args: seq<Arg>): (r: Option<nat>)
    ensures r.Some? ==> r.value < |args| && sx.subcommand(args[r.value])
    decreases |args|
  {
    if args == [] || args[0] == DASHES then None
    else if sx.takesValue(args[0]) then (if |args| == 1 then None else Beyond(2, SubcommandAt(sx, args[2..])))
    else if sx.worktree(args[0]) then
      if |args| > 1 && sx.worktreeMode(args[1]) then Beyond(2, SubcommandAt(sx, args[2..]))
      else Beyond(1, SubcommandAt(sx, args[1..]))
    else if OptionLike(args[0]) then Beyond(1, SubcommandAt(sx, args[1..]))
    else if sx.subcommand(args[0]) then Some(0)
    else None
  }

  function Beyond(skip: nat, found: Option<nat>): Option<nat> { if found.Some? then Some(skip + found.value) else None }

  lemma BeyondTwice(a: nat, b: nat, found: Option<nat>)
    ensures Beyond(a, Beyond(b, found)) == Beyond(a + b, found)
  {
  }

  method StockSubcommandIndex(sx: Syntax, args: seq<Arg>) returns (r: Option<nat>)
    ensures r == SubcommandAt(sx, args)
  {
    var index := 0;
    while index < |args|
      invariant index <= |args|
      invariant SubcommandAt(sx, args) == Beyond(index, SubcommandAt(sx, args[index..]))
    {
      var argument := args[index];
      if argument == DASHES {
        return None;
      }
      if sx.takesValue(argument) {
        if index + 1 == |args| {
          return None;
        }
        Onward(args, index, 2);
        BeyondTwice(index, 2, SubcommandAt(sx, args[index + 2..]));
        index := index + 2;
        continue;
      }
      if sx.worktree(argument) {
        var skip := if index + 1 < |args| && sx.worktreeMode(args[index + 1]) then 2 else 1;
        Onward(args, index, skip);
        BeyondTwice(index, skip, SubcommandAt(sx, args[index + skip..]));
        index := index + skip;
        continue;
      }
      if !OptionLike(argument) {
        return if sx.subcommand(argument) then Some(index) else None;
      }
      Onward(args, index, 1);
      BeyondTwice(index, 1, SubcommandAt(sx, args[index + 1..]));
      index := index + 1;
    }
    return None;
  }

  lemma UnitsAfter(sx: Syntax, args: seq<Arg>, unit: Unit)
    requires args != [] && unit == FirstUnit(sx, args)
    ensures Units(sx, args) == [unit] + Units(sx, args[|ArgsOf(unit)|..])
    ensures args == ArgsOf(unit) + args[|ArgsOf(unit)|..]
  {
    UnitsStep(sx, args);
  }

  /** Unit `k` holds argument `i`, with the units before and after it holding
      the arguments before and after. */
  ghost predicate Stands(sx: Syntax, args: seq<Arg>, i: nat, k: nat) {
    && i < |args| && k < |Units(sx, args)| && Units(sx, args)[k] == Single(args[i])
    && Flat(Units(sx, args)[..k]) == args[..i] && Flat(Units(sx, args)[k + 1..]) == args[i + 1..]
  }

  lemma StandsFirst(sx: Syntax, args: seq<Arg>)
    requires args != [] && args[0] != DASHES && !sx.takesValue(args[0])
    ensures Stands(sx, args, 0, 0)
  {
    FlatUnits(sx, args[1..]);
    assert ([Single(args[0])] + Units(sx, args[1..]))[1..] == Units(sx, args[1..]);
  }

  lemma StandsBeyond(sx: Syntax, args: seq<Arg>, i: nat, k: nat)
    requires args != [] && Stands(sx, args[|ArgsOf(FirstUnit(sx, args))|..], i, k)
    ensures Stands(sx, args, i + |ArgsOf(FirstUnit(sx, args))|, k + 1)
  {
    var unit := FirstUnit(sx, args);
    var rest := args[|ArgsOf(unit)|..];
    UnitsAfter(sx, args, unit);
    UnitPrepended(unit, Units(sx, rest), k);
    assert ArgsOf(unit) + rest[..i] == args[..i + |ArgsOf(unit)|];
    assert rest[i + 1..] == args[i + |ArgsOf(unit)| + 1..];
  }

  lemma UnitPrepended(unit: Unit, units: seq<Unit>, k: nat)
    requires k < |units|
    ensures var all := [unit] + units;
            && all[k + 1] == units[k]
            && Flat(all[..k + 1]) == ArgsOf(unit) + Flat(units[..k]) && all[k + 2..] == units[k + 1..]
  {
    var all := [unit] + units;
    assert all[..k + 1] == [unit] + units[..k];
    assert ([unit] + units[..k])[1..] == units[..k];
  }

  lemma StandsBeyondMode(sx: Syntax, args: seq<Arg>, i: nat, k: nat)
    requires Sensible(sx) && |args| > 1 && args[0] != DASHES && !sx.takesValue(args[0]) && sx.worktreeMode(args[1])
    requires Stands(sx, args[2..], i, k)
    ensures Stands(sx, args, i + 2, k + 2)
  {
    assert args[1..][1..] == args[2..];
    assert FirstUnit(sx, args[1..]) == Single(args[1]) && FirstUnit(sx, args) == Single(args[0]);
    StandsBeyond(sx, args[1..], i, k);
    StandsBeyond(sx, args, i + 1, k + 1);
  }

  /** The subcommand is a unit of its own. */
  lemma {:induction false} SubcommandIsUnit(sx: Syntax, args: seq<Arg>) returns (k: nat)
    requires Sensible(sx) && SubcommandAt(sx, args).Some?
    ensures Stands(sx, args, SubcommandAt(sx, args).value, k)
    decreases |args|
  {
    if sx.takesValue(args[0]) {
      k := SubcommandIsUnit(sx, args[2..]);
      StandsBeyond(sx, args, SubcommandAt(sx, args[2..]).value, k);
      k := k + 1;
    } else if sx.worktree(args[0]) && |args| > 1 && sx.worktreeMode(args[1]) {
      k := SubcommandIsUnit(sx, args[2..]);
      StandsBeyondMode(sx, args, SubcommandAt(sx, args[2..]).value, k);
      k := k + 2;
    } else if sx.worktree(args[0]) || OptionLike(args[0]) {
      k := SubcommandIsUnit(sx, args[1..]);
      StandsBeyond(sx, args, SubcommandAt(sx, args[1..]).value, k);
      k := k + 1;
    } else {
      StandsFirst(sx, args);
      k := 0;
    }
  }

  const EXEC: Arg := Text("exec")

  const RESUME: Arg := Text("resume")

  /** Only `exec` takes the key flag; elsewhere it is left to stock Muse. */
  method TakeExecApiKeyStdin(sx: Syntax, args: seq<Arg>) returns (selected: bool, remaining: seq<Arg>)
    requires Launcher(sx)
    ensures var isExec := SubcommandAt(sx, args).Some? && args[SubcommandAt(sx, args).value] == Text("exec");
            var isFlag := (unit: Unit) => unit == Single(Text("--api-key-stdin"));
            && Units(sx, remaining) == (if isExec then Keep(Units(sx, args), isFlag) else Units(sx, args))
            && (selected <==> isExec && Single(Text("--api-key-stdin")) in Units(sx, args))
  {
    var index := StockSubcommandIndex(sx, args);
    if index.None? || args[index.value] != EXEC {
      return false, args;
    }
    selected, remaining := TakeFlag(sx, args, KEY_FLAG);
    StripFilters(sx, args, IsFlag(KEY_FLAG));
    SameKeep(Units(sx, args), IsFlag(KEY_FLAG), (unit: Unit) => unit == Single(Text("--api-key-stdin")));
  }

  // ----- routing -----

  /** A unit the launcher drops before adding its own. */
  predicate Routing(unit: Unit) {
    match unit
    case Paired(option, value) => (option == PROVIDER_FLAG || option == BASE_URL_FLAG) && !OptionLike(value)
    case Single(arg) => StartsWith(arg, PROVIDER_PREFIX) || StartsWith(arg, BASE_URL_PREFIX)
    case Verbatim(_) => false
  }

  function RoutingArgs(url: Arg): seq<Arg> { [PROVIDER_FLAG, Text("meta"), BASE_URL_FLAG, url] }

  function RoutingUnits(url: Arg): seq<Unit> { [Paired(PROVIDER_FLAG, Text("meta")), Paired(BASE_URL_FLAG, url)] }

  predicate NeedsRouting(subcommand: Arg) { subcommand == EXEC || subcommand == RESUME }

  /** The subcommand moved to the front and the launcher's routing put after it,
      where stock Muse accepts it. */
  function Routed(sx: Syntax, kept: seq<Arg>, url: Arg): seq<Arg> {
    match SubcommandAt(sx, kept)
    case None => RoutingArgs(url) + kept
    case Some(i) => [kept[i]] + (if NeedsRouting(kept[i]) then RoutingArgs(url) else []) + (kept[..i] + kept[i + 1..])
  }

  method RewriteMuseArgs(sx: Syntax, args: seq<Arg>, url: Arg) returns (rewritten: seq<Arg>)
    requires Launcher(sx)
    ensures rewritten == Routed(sx, Strip(sx, args, Routing), url)
  {
    rewritten := DropRouting(sx, args);
    var index := StockSubcommandIndex(sx, rewritten);
    if index.Some? {
      var subcommand := rewritten[index.value];
      rewritten := rewritten[..index.value] + rewritten[index.value + 1..];
      rewritten := [subcommand] + rewritten;
      if NeedsRouting(subcommand) {
        rewritten := rewritten[..1] + RoutingArgs(url) + rewritten[1..];
      }
    } else {
      rewritten := RoutingArgs(url) + rewritten;
    }
  }

  method DropRouting(sx: Syntax, args: seq<Arg>) returns (rewritten: seq<Arg>)
    requires Launcher(sx)
    ensures rewritten == Strip(sx, args, Routing)
  {
    var index := 0;
    rewritten := [];
    ghost var rest := args;
    assert [] + Strip(sx, args, Routing) == Strip(sx, args, Routing);
    while index < |args|
      invariant index <= |args| && rest == args[index..]
      invariant rewritten + Strip(sx, rest, Routing) == Strip(sx, args, Routing)
    {
      var arg := args[index];
      ghost var unit := FirstUnit(sx, rest);
      StripOn(sx, rewritten, rest, Routing);
      if arg == DASHES {
        assert ArgsOf(unit) == args[index..] && rest[|rest|..] == [];
        rewritten := rewritten + args[index..];
        index, rest := |args|, [];
        break;
      }
      if (arg == PROVIDER_FLAG || arg == BASE_URL_FLAG) && index + 1 < |args| && !OptionLike(args[index + 1]) {
        Onward(args, index, 2);
        assert unit == Paired(arg, args[index + 1]);
        index, rest := index + 2, rest[2..];
        continue;
      }
      if StartsWith(arg, PROVIDER_PREFIX) || StartsWith(arg, BASE_URL_PREFIX) {
        Onward(args, index, 1);
        assert unit == Single(arg);
        index, rest := index + 1, rest[1..];
        continue;
      }
      var count := if sx.takesValue(arg) && index + 1 < |args| then 2 else 1;
      Onward(args, index, count);
      assert count == |ArgsOf(unit)| && ArgsOf(unit) == args[index..index + count] && !Routing(unit);
      rewritten := rewritten + args[index..index + count];
      index, rest := index + count, rest[count..];
    }
    assert rest == [] && rewritten + [] == rewritten;
  }

  /** A unit that says anything of provider or base URL. */
  predicate Routes(unit: Unit) { !ProviderMention(unit).Silent? || !UrlMention(unit).Silent? }

  /** Command lines the launcher's two validations accept. */
  ghost predicate Accepted(sx: Syntax, args: seq<Arg>) {
    Scan(Units(sx, args), ProviderMention, None).Some? && Scan(Units(sx, args), UrlMention, None).Some?
  }

  lemma {:induction false} SameKeep(units: seq<Unit>, a: Unit -> bool, b: Unit -> bool)
    requires forall i :: 0 <= i < |units| ==> a(units[i]) == b(units[i])
    ensures Keep(units, a) == Keep(units, b)
  {
    if units != [] {
      assert forall i :: 0 <= i < |units[1..]| ==> units[1..][i] == units[i + 1];
      SameKeep(units[1..], a, b);
    }
  }

  lemma WellFormedRoutes(unit: Unit)
    requires !ProviderMention(unit).Bad? && !UrlMention(unit).Bad?
    ensures Routing(unit) == Routes(unit)
  {
  }

  /** On an accepted line the launcher drops exactly what mentions routing. */
  lemma AcceptedDropsRoutes(sx: Syntax, args: seq<Arg>)
    requires Accepted(sx, args)
    ensures Keep(Units(sx, args), Routing) == Keep(Units(sx, args), Routes)
  {
    var units := Units(sx, args);
    ScanAgrees(units, ProviderMention, None);
    ScanAgrees(units, UrlMention, None);
    forall i | 0 <= i < |units|
      ensures Routing(units[i]) == Routes(units[i])
    {
      WellFormedRoutes(units[i]);
    }
    SameKeep(units, Routing, Routes);
  }

  lemma ReadableCons(sx: Syntax, unit: Unit, units: seq<Unit>)
    requires Readable(sx, units)
    requires unit.Paired? ==> sx.takesValue(unit.option) && unit.option != DASHES
    requires unit.Single? ==> unit.arg != DASHES && !sx.takesValue(unit.arg)
    requires !unit.Verbatim?
    ensures Readable(sx, [unit] + units)
  {
    assert ([unit] + units)[1..] == units;
  }

  lemma {:induction false} ReadableWithout(sx: Syntax, units: seq<Unit>, k: nat)
    requires Readable(sx, units) && k < |units| && units[k].Single? && !sx.takesValue(units[k].arg)
    ensures Readable(sx, units[..k] + units[k + 1..])
  {
    if k == 0 {
      assert units[..0] + units[1..] == units[1..];
    } else {
      ReadableWithout(sx, units[1..], k - 1);
      var rest := units[1..][..k - 1] + units[1..][k..];
      assert units[..k] + units[k + 1..] == [units[0]] + rest;
      ReadableCons(sx, units[0], rest);
    }
  }

  lemma RoutingFlat(url: Arg, units: seq<Unit>)
    ensures Flat(RoutingUnits(url) + units) == RoutingArgs(url) + Flat(units)
  {
    var first, second := Paired(PROVIDER_FLAG, Text("meta")), Paired(BASE_URL_FLAG, url);
    assert (RoutingUnits(url) + units)[1..] == [second] + units;
    assert ([second] + units)[1..] == units;
    assert [PROVIDER_FLAG, Text("meta")] + ([BASE_URL_FLAG, url] + Flat(units)) == RoutingArgs(url) + Flat(units);
  }

  lemma RoutingReadable(sx: Syntax, url: Arg, units: seq<Unit>)
    requires Launcher(sx) && Readable(sx, units)
    ensures Readable(sx, RoutingUnits(url) + units)
  {
    var first, second := Paired(PROVIDER_FLAG, Text("meta")), Paired(BASE_URL_FLAG, url);
    ReadableCons(sx, second, units);
    ReadableCons(sx, first, [second] + units);
    assert RoutingUnits(url) + units == [first] + ([second] + units);
  }

  lemma SilentRest(units: seq<Unit>, i: nat)
    requires i < |Keep(units, Routes)|
    ensures !Routes(Keep(units, Routes)[i])
  {
    KeptAreNotDropped(units, Routes, i);
  }

  lemma RoutedWithout(sx: Syntax, args: seq<Arg>, url: Arg)
    requires Launcher(sx) && SubcommandAt(sx, args).None?
    ensures Units(sx, Routed(sx, args, url)) == RoutingUnits(url) + Units(sx, args)
  {
    var units := Units(sx, args);
    FlatUnits(sx, args);
    UnitsAreReadable(sx, args);
    RoutingReadable(sx, url, units);
    RoutingFlat(url, units);
    ReadableReadsBack(sx, RoutingUnits(url) + units);
  }

  lemma RoutedWith(sx: Syntax, args: seq<Arg>, url: Arg) returns (k: nat)
    requires Launcher(sx) && SubcommandAt(sx, args).Some?
    ensures var units := Units(sx, args);
            var subcommand := args[SubcommandAt(sx, args).value];
            && Stands(sx, args, SubcommandAt(sx, args).value, k) && k < |units| && units[k] == Single(subcommand)
            && Units(sx, Routed(sx, args, url))
               == [Single(subcommand)]
                  + ((if NeedsRouting(subcommand) then RoutingUnits(url) else []) + (units[..k] + units[k + 1..]))
  {
    var units, i := Units(sx, args), SubcommandAt(sx, args).value;
    var subcommand := args[i];
    k := SubcommandIsUnit(sx, args);
    UnitsAreReadable(sx, args);
    ReadableWithout(sx, units, k);
    var others := units[..k] + units[k + 1..];
    FlatAppend(units[..k], units[k + 1..]);
    var tail := if NeedsRouting(subcommand) then RoutingUnits(url) + others else others;
    RoutingReadable(sx, url, others);
    RoutingFlat(url, others);
    ReadableCons(sx, Single(subcommand), tail);
    assert ([Single(subcommand)] + tail)[1..] == tail;
    assert [] + others == others;
    ReadableReadsBack(sx, [Single(subcommand)] + tail);
    RoutedFlat(sx, args, url, i, tail, others);
  }

  lemma RoutedFlat(sx: Syntax, args: seq<Arg>, url: Arg, i: nat, tail: seq<Unit>, others: seq<Unit>)
    requires SubcommandAt(sx, args) == Some(i) && Flat(others) == args[..i] + args[i + 1..]
    requires Flat(tail) == if NeedsRouting(args[i]) then RoutingArgs(url) + Flat(others) else Flat(others)
    ensures Flat([Single(args[i])] + tail) == Routed(sx, args, url)
  {
    assert ([Single(args[i])] + tail)[1..] == tail;
    assert [args[i]] + [] == [args[i]];
    assert [args[i]] + (RoutingArgs(url) + Flat(others)) == [args[i]] + RoutingArgs(url) + Flat(others);
  }

  /** An accepted command line reaches stock Muse with the launcher's provider
      and base URL exactly once, or not at all for a subcommand that takes
      none; the subcommand comes first and every other unit keeps its place. */
  lemma RewrittenRoutesOnce(sx: Syntax, args: seq<Arg>, url: Arg) returns (k: nat)
    requires Launcher(sx) && Accepted(sx, args)
    ensures var others := Keep(Units(sx, args), Routes);
            var rewritten := Units(sx, Routed(sx, Strip(sx, args, Routing), url));
            && (forall i :: 0 <= i < |others| ==> !Routes(others[i]))
            && match SubcommandAt(sx, Strip(sx, args, Routing))
               case None => rewritten == RoutingUnits(url) + others
               case Some(i) =>
                 var subcommand := Strip(sx, args, Routing)[i];
                 && k < |others| && others[k] == Single(subcommand)
                 && rewritten
                    == [Single(subcommand)]
                       + ((if NeedsRouting(subcommand) then RoutingUnits(url) else [])
                          + (others[..k] + others[k + 1..]))
  {
    var kept := Strip(sx, args, Routing);
    var others := Keep(Units(sx, args), Routes);
    StripFilters(sx, args, Routing);
    AcceptedDropsRoutes(sx, args);
    forall i | 0 <= i < |others|
      ensures !Routes(others[i])
    {
      SilentRest(Units(sx, args), i);
    }
    if SubcommandAt(sx, kept).None? {
      RoutedWithout(sx, kept, url);
      k := 0;
    } else {
      k := RoutedWith(sx, kept, url);
    }
  }
}
