/** The launcher's argument scanners, each a loop over the same units. */
module LauncherArgs {
  import opened Prelude
  import opened ArgUnits
  import opened MspProviders

  const PROVIDER_FLAG: Arg := Text("--provider")

  const BASE_URL_FLAG: Arg := Text("--base-url")

  const FAST_FLAG: Arg := Text("--fast")

  const KEY_FLAG: Arg := Text("--api-key-stdin")

  const PROVIDER_PREFIX: string := "--provider="

  const BASE_URL_PREFIX: string := "--base-url="

  /** A syntax in which the launcher's own flags are what they should be, and
      `--option=value` is one argument. */
  ghost predicate Launcher(sx: Syntax) {
    && Sensible(sx) && sx.takesValue(PROVIDER_FLAG) && sx.takesValue(BASE_URL_FLAG)
    && !sx.takesValue(FAST_FLAG) && !sx.takesValue(KEY_FLAG)
    && FAST_FLAG != DASHES && KEY_FLAG != DASHES
    && forall a :: StartsWith(a, PROVIDER_PREFIX) || StartsWith(a, BASE_URL_PREFIX) ==> !sx.takesValue(a)
  }

  /** Stock Muse's options and subcommands. */
  const STOCK: Syntax := Syntax(
    (a: Arg) => a.Text? && a.t in {
      "--provider", "--base-url", "--agents", "--preset", "--model", "--reasoning-effort", "--image", "--workspace",
      "--worktree-base", "--worktree-existing", "--approval-mode", "--permission-profile", "--approval-judge",
      "--echo-delay-ms", "--sandbox-network", "--prompt-file", "--context-compaction-strategy",
      "--context-compaction-soft-threshold", "--context-compaction-hard-threshold", "--max-model-steps",
      "--max-tool-output-bytes", "--session-id", "--out", "--format"
    },
    (a: Arg) => a.Text? && a.t in {
      "config", "export", "trace", "skills", "sandbox", "schema", "session-message", "init",
      "exec", "serve", "resume", "auth", "login", "logout"
    },
    (a: Arg) => a.Text? && a.t in {"-w", "--worktree"},
    (a: Arg) => a.Text? && a.t in {"off", "create", "existing"})

  lemma StockOptionsLookIt(a: Arg)
    requires STOCK.takesValue(a)
    ensures |a.t| > 2 && a.t[0] == '-' && a.t[1] == '-' && (|a.t| > 10 ==> a.t[10] != '=')
  {
  }

  lemma StockWordsDoNot(a: Arg)
    requires STOCK.subcommand(a) || STOCK.worktreeMode(a)
    ensures |a.t| > 0 && a.t[0] != '-'
  {
  }

  /** Stock Muse's syntax is one the scanners can rely on. */
  lemma StockIsSensible()
    ensures Sensible(STOCK)
  {
    forall a | STOCK.takesValue(a)
      ensures OptionLike(a) && a != DASHES
    {
      StockOptionsLookIt(a);
    }
    forall a | STOCK.subcommand(a) || STOCK.worktreeMode(a)
      ensures !OptionLike(a)
    {
      StockWordsDoNot(a);
    }
    forall a | STOCK.worktree(a)
      ensures OptionLike(a)
    {
      assert a.t == "-w" || a.t == "--worktree";
    }
  }

  lemma StockKeepsEquals(a: Arg)
    requires StartsWith(a, PROVIDER_PREFIX) || StartsWith(a, BASE_URL_PREFIX)
    ensures !STOCK.takesValue(a)
  {
    assert a.t[10] == '=';
    if STOCK.takesValue(a) {
      StockOptionsLookIt(a);
    }
  }

  lemma StockTakesRouting()
    ensures STOCK.takesValue(PROVIDER_FLAG) && STOCK.takesValue(BASE_URL_FLAG)
  {
  }

  lemma StockFastTakesNothing()
    ensures !STOCK.takesValue(FAST_FLAG)
  {
    assert |FAST_FLAG.t| == 6;
  }

  lemma StockKeyTakesNothing()
    ensures !STOCK.takesValue(KEY_FLAG)
  {
    assert |KEY_FLAG.t| == 15 && KEY_FLAG.t[4] == 'i';
  }

  lemma StockIsLauncher()
    ensures Launcher(STOCK)
  {
    StockIsSensible();
    StockTakesRouting();
    StockFastTakesNothing();
    StockKeyTakesNothing();
    forall a | StartsWith(a, PROVIDER_PREFIX) || StartsWith(a, BASE_URL_PREFIX)
      ensures !STOCK.takesValue(a)
    {
      StockKeepsEquals(a);
    }
  }

  // ----- one unit at a time -----

  function FirstUnit(sx: Syntax, args: seq<Arg>): (unit: Unit)
    requires args != []
    ensures ArgsOf(unit) <= args && ArgsOf(unit) != []
  {
    if args[0] == DASHES then Verbatim(args)
    else if sx.takesValue(args[0]) && |args| > 1 then Paired(args[0], args[1])
    else Single(args[0])
  }

  lemma UnitsStep(sx: Syntax, args: seq<Arg>)
    requires args != []
    ensures var unit := FirstUnit(sx, args);
            Units(sx, args) == [unit] + Units(sx, args[|ArgsOf(unit)|..])
  {
    if args[0] == DASHES {
      assert args[|args|..] == [];
    }
  }

  lemma StripStep(sx: Syntax, args: seq<Arg>, drop: Unit -> bool)
    requires args != []
    ensures var unit := FirstUnit(sx, args);
            Strip(sx, args, drop) == (if drop(unit) then [] else ArgsOf(unit)) + Strip(sx, args[|ArgsOf(unit)|..], drop)
  {
    var unit := FirstUnit(sx, args);
    var rest := Units(sx, args[|ArgsOf(unit)|..]);
    UnitsStep(sx, args);
    assert ([unit] + rest)[1..] == rest;
    if drop(unit) {
      assert [] + Keep(rest, drop) == Keep(rest, drop);
    } else {
      assert ([unit] + Keep(rest, drop))[1..] == Keep(rest, drop);
    }
  }

  lemma Join3<T>(a: seq<T>, b: seq<T>, c: seq<T>)
    ensures (a + b) + c == a + (b + c)
  {
  }

  // ----- flags -----

  function IsFlag(flag: Arg): Unit -> bool { unit => unit == Single(flag) }

  lemma StripOn(sx: Syntax, done: seq<Arg>, args: seq<Arg>, drop: Unit -> bool)
    requires args != []
    ensures var unit := FirstUnit(sx, args);
            done + Strip(sx, args, drop)
            == (if drop(unit) then done else done + ArgsOf(unit)) + Strip(sx, args[|ArgsOf(unit)|..], drop)
  {
    var unit := FirstUnit(sx, args);
    StripStep(sx, args, drop);
    Join3(done, if drop(unit) then [] else ArgsOf(unit), Strip(sx, args[|ArgsOf(unit)|..], drop));
    assert done + [] == done;
  }

  lemma FlagOn(sx: Syntax, args: seq<Arg>, flag: Arg)
    requires args != []
    ensures var unit := FirstUnit(sx, args);
            Single(flag) in Units(sx, args)
            <==> unit == Single(flag) || Single(flag) in Units(sx, args[|ArgsOf(unit)|..])
  {
    UnitsStep(sx, args);
  }

  lemma Onward<T>(args: seq<T>, index: nat, count: nat)
    requires index + count <= |args|
    ensures args[index..][count..] == args[index + count..] && args[index..][..count] == args[index..index + count]
  {
  }

  /** Where the unit starting at `index` ends. */
  function UnitEnd(sx: Syntax, args: seq<Arg>, index: nat): (end: nat)
    requires index < |args|
    ensures index < end <= |args|
  {
    if args[index] == DASHES then |args|
    else if sx.takesValue(args[index]) && index + 1 < |args| then index + 2
    else index + 1
  }

  lemma UnitAt(sx: Syntax, args: seq<Arg>, index: nat)
    requires index < |args|
    ensures var unit, end := FirstUnit(sx, args[index..]), UnitEnd(sx, args, index);
            ArgsOf(unit) == args[index..end] && args[index..][|ArgsOf(unit)|..] == args[end..]
  {
  }

  lemma FlagStep(sx: Syntax, done: seq<Arg>, args: seq<Arg>, index: nat, flag: Arg)
    requires index < |args| && !sx.takesValue(flag) && flag != DASHES
    ensures var end := UnitEnd(sx, args, index);
            && done + Strip(sx, args[index..], IsFlag(flag))
               == (if args[index] == flag then done else done + args[index..end])
                  + Strip(sx, args[end..], IsFlag(flag))
            && (Single(flag) in Units(sx, args[index..])
                <==> args[index] == flag || Single(flag) in Units(sx, args[end..]))
  {
    UnitAt(sx, args, index);
    StripOn(sx, done, args[index..], IsFlag(flag));
    FlagOn(sx, args[index..], flag);
    assert IsFlag(flag)(FirstUnit(sx, args[index..])) <==> args[index] == flag;
  }

  /** Removes every occurrence of a flag at unit level. */
  method TakeFlag(sx: Syntax, args: seq<Arg>, flag: Arg) returns (selected: bool, remaining: seq<Arg>)
    requires !sx.takesValue(flag) && flag != DASHES
    ensures remaining == Strip(sx, args, IsFlag(flag)) && (selected <==> Single(flag) in Units(sx, args))
  {
    var index := 0;
    selected, remaining := false, [];
    Join3([], [], Strip(sx, args, IsFlag(flag)));
    assert args[0..] == args;
    while index < |args|
      invariant index <= |args|
      invariant remaining + Strip(sx, args[index..], IsFlag(flag)) == Strip(sx, args, IsFlag(flag))
      invariant selected || Single(flag) in Units(sx, args[index..]) <==> Single(flag) in Units(sx, args)
    {
      var argument := args[index];
      FlagStep(sx, remaining, args, index, flag);
      if argument == DASHES {
        remaining := remaining + args[index..];
        index := |args|;
        break;
      }
      if argument == flag {
        selected := true;
        index := index + 1;
        continue;
      }
      var count := if sx.takesValue(argument) && index + 1 < |args| then 2 else 1;
      remaining := remaining + args[index..index + count];
      index := index + count;
    }
    assert args[index..] == [] && remaining + [] == remaining;
  }

  // ----- mentions of one setting -----

  /** What a unit says of a setting. */
  datatype Mention<+T> = Silent | Says(value: T) | Bad

  function Merge<T(==)>(slot: Option<T>, value: T): Option<Option<T>> {
    if slot.Some? && slot.value != value then None else Some(Some(value))
  }

  /** The setting all mentions agree on, if none is bad. */
  function Scan<T(==)>(units: seq<Unit>, mention: Unit -> Mention<T>, slot: Option<T>): Option<Option<T>>
    decreases |units|
  {
    if units == [] then Some(slot)
    else
      match mention(units[0])
      case Silent => Scan(units[1..], mention, slot)
      case Bad => None
      case Says(value) =>
        match Merge(slot, value)
        case None => None
        case Some(next) => Scan(units[1..], mention, next)
  }

  predicate Agreed<T(==)>(units: seq<Unit>, mention: Unit -> Mention<T>, slot: Option<T>) {
    && (forall i :: 0 <= i < |units| ==> !mention(units[i]).Bad?)
    && (forall i, j :: 0 <= i < |units| && 0 <= j < |units| && mention(units[i]).Says? && mention(units[j]).Says? ==>
          mention(units[i]) == mention(units[j]))
    && (slot.Some? ==>
          forall i :: 0 <= i < |units| && mention(units[i]).Says? ==> mention(units[i]).value == slot.value)
  }

  lemma AgreedRest<T>(units: seq<Unit>, mention: Unit -> Mention<T>, slot: Option<T>)
    requires units != []
    ensures Agreed(units, mention, slot)
       <==> match mention(units[0])
            case Bad => false
            case Silent => Agreed(units[1..], mention, slot)
            case Says(value) => Merge(slot, value).Some? && Agreed(units[1..], mention, Some(value))
  {
    var rest := units[1..];
    assert forall i :: 0 <= i < |rest| ==> rest[i] == units[i + 1];
    assert forall i :: 0 < i < |units| ==> units[i] == rest[i - 1];
  }

  /** Scanning succeeds exactly when no mention is bad and all agree, and gives
      what they say. */
  lemma {:induction false} ScanAgrees<T>(units: seq<Unit>, mention: Unit -> Mention<T>, slot: Option<T>)
    ensures Scan(units, mention, slot).Some? <==> Agreed(units, mention, slot)
    ensures Scan(units, mention, slot).Some? ==>
              && (forall i :: 0 <= i < |units| && mention(units[i]).Says? ==>
                    Scan(units, mention, slot).value == Some(mention(units[i]).value))
              && (slot.Some? ==> Scan(units, mention, slot).value == slot)
              && (slot.None? && (forall i :: 0 <= i < |units| ==> mention(units[i]).Silent?) ==>
                    Scan(units, mention, slot).value == None)
    decreases |units|
  {
    if units != [] {
      AgreedRest(units, mention, slot);
      var rest := units[1..];
      assert forall i :: 0 < i < |units| ==> units[i] == rest[i - 1];
      assert forall i :: 0 <= i < |rest| ==> rest[i] == units[i + 1];
      match mention(units[0])
      case Silent => ScanAgrees(rest, mention, slot);
      case Bad =>
      case Says(value) =>
        if Merge(slot, value).Some? {
          ScanAgrees(rest, mention, Some(value));
        }
    }
  }

  // ----- provider selection -----

  function ParseProvider(value: Arg): Mention<PublicProvider> {
    if value == Text("codex") then Says(Codex) else if value == Text("zai") then Says(Zai) else Bad
  }

  function ProviderMention(unit: Unit): Mention<PublicProvider> {
    match unit
    case Paired(option, value) =>
      if option != PROVIDER_FLAG then Silent else if OptionLike(value) then Bad else ParseProvider(value)
    case Single(arg) =>
      if arg == PROVIDER_FLAG then Bad
      else if StartsWith(arg, PROVIDER_PREFIX) then ParseProvider(Text(arg.t[|PROVIDER_PREFIX|..]))
      else Silent
    case Verbatim(_) => Silent
  }

  predicate NamesProvider(unit: Unit) { !ProviderMention(unit).Silent? }

  /** The provider a command line selects, and the line without it. */
  function SelectProvider(sx: Syntax, args: seq<Arg>): Option<(Option<PublicProvider>, seq<Arg>)> {
    match Scan(Units(sx, args), ProviderMention, None)
    case None => None
    case Some(selected) => Some((selected, Strip(sx, args, NamesProvider)))
  }

  lemma ScanOn<T>(sx: Syntax, args: seq<Arg>, mention: Unit -> Mention<T>, slot: Option<T>)
    requires args != []
    ensures var unit := FirstUnit(sx, args);
            var rest := Units(sx, args[|ArgsOf(unit)|..]);
            Scan(Units(sx, args), mention, slot)
            == match mention(unit)
               case Silent => Scan(rest, mention, slot)
               case Bad => None
               case Says(value) =>
                 (match Merge(slot, value) case None => None case Some(next) => Scan(rest, mention, next))
  {
    UnitsStep(sx, args);
    var unit := FirstUnit(sx, args);
    assert ([unit] + Units(sx, args[|ArgsOf(unit)|..]))[1..] == Units(sx, args[|ArgsOf(unit)|..]);
  }

  /** Repeating a value is harmless, another one is not. */
  method MergeMention<T(==)>(slot: Option<T>, mention: Mention<T>) returns (next: Option<Option<T>>)
    ensures next == if mention.Says? then Merge(slot, mention.value) else None
  {
    if !mention.Says? || (slot.Some? && slot.value != mention.value) {
      return None;
    }
    return Some(Some(mention.value));
  }

  /** What the argument at `index` says of the provider, and how many arguments
      its unit holds. */
  method ReadProvider(sx: Syntax, args: seq<Arg>, index: nat) returns (mention: Mention<PublicProvider>, count: nat)
    requires Launcher(sx) && index < |args| && args[index] != DASHES
    ensures var unit := FirstUnit(sx, args[index..]);
            mention == ProviderMention(unit) && count == |ArgsOf(unit)| && ArgsOf(unit) == args[index..][..count]
  {
    var arg := args[index];
    count := if sx.takesValue(arg) && index + 1 < |args| then 2 else 1;
    if arg == PROVIDER_FLAG {
      if index + 1 == |args| || OptionLike(args[index + 1]) {
        return Bad, count;
      }
      return ParseProvider(args[index + 1]), count;
    }
    if StartsWith(arg, PROVIDER_PREFIX) {
      return ParseProvider(Text(arg.t[|PROVIDER_PREFIX|..])), count;
    }
    return Silent, count;
  }

  method ValidateAndRemoveProvider(sx: Syntax, args: seq<Arg>) returns (r: Option<(Option<PublicProvider>, seq<Arg>)>)
    requires Launcher(sx)
    ensures r == SelectProvider(sx, args)
  {
    var index, selected, remaining := 0, None, [];
    ghost var rest := args;
    Join3([], [], Strip(sx, args, NamesProvider));
    while index < |args|
      invariant index <= |args| && rest == args[index..]
      invariant remaining + Strip(sx, rest, NamesProvider) == Strip(sx, args, NamesProvider)
      invariant Scan(Units(sx, rest), ProviderMention, selected) == Scan(Units(sx, args), ProviderMention, None)
    {
      ghost var unit := FirstUnit(sx, rest);
      StripOn(sx, remaining, rest, NamesProvider);
      ScanOn(sx, rest, ProviderMention, selected);
      if args[index] == DASHES {
        assert ArgsOf(unit) == args[index..] && rest[|rest|..] == [];
        remaining := remaining + args[index..];
        index, rest := |args|, [];
        break;
      }
      var mention, count := ReadProvider(sx, args, index);
      Onward(args, index, count);
      if mention.Silent? {
        remaining := remaining + args[index..index + count];
      } else {
        var merged := MergeMention(selected, mention);
        if merged.None? {
          return None;
        }
        selected := merged.value;
      }
      index, rest := index + count, rest[count..];
    }
    assert rest == [] && remaining + [] == remaining;
    return Some((selected, remaining));
  }

  // ----- base URL -----

  function UrlMention(unit: Unit): Mention<Arg> {
    match unit
    case Paired(option, value) =>
      if option != BASE_URL_FLAG then Silent else if value == Text("") || OptionLike(value) then Bad else Says(value)
    case Single(arg) =>
      if arg == BASE_URL_FLAG then Bad
      else if StartsWith(arg, BASE_URL_PREFIX) then
        var value := arg.t[|BASE_URL_PREFIX|..];
        if value == "" then Bad else Says(Text(value))
      else Silent
    case Verbatim(_) => Silent
  }

  /** The upstream URL from the command line and the environment, which must
      not contradict each other. */
  function ResolveUrl(cli: Option<Arg>, environment: Option<Arg>): Option<Option<Arg>> {
    var given := if environment == Some(Text("")) then None else environment;
    if cli.Some? && given.Some? && cli.value != given.value then None
    else if cli.Some? then Some(cli)
    else Some(given)
  }

  method ResolveUpstreamBaseUrl(sx: Syntax, args: seq<Arg>, environment: Option<Arg>) returns (r: Option<Option<Arg>>)
    requires Launcher(sx)
    ensures r == match Scan(Units(sx, args), UrlMention, None)
                 case None => None
                 case Some(cli) => ResolveUrl(cli, environment)
  {
    var index, cli := 0, None;
    ghost var rest := args;
    while index < |args|
      invariant index <= |args| && rest == args[index..]
      invariant Scan(Units(sx, rest), UrlMention, cli) == Scan(Units(sx, args), UrlMention, None)
    {
      var arg := args[index];
      ScanOn(sx, rest, UrlMention, cli);
      if arg == DASHES {
        assert rest[|rest|..] == [];
        rest := [];
        break;
      }
      if arg == BASE_URL_FLAG {
        if index + 1 == |args| || args[index + 1] == Text("") || OptionLike(args[index + 1]) {
          return None;
        }
        Onward(args, index, 2);
        if cli.Some? && cli.value != args[index + 1] {
          return None;
        }
        cli := Some(args[index + 1]);
        index, rest := index + 2, rest[2..];
        continue;
      }
      if StartsWith(arg, BASE_URL_PREFIX) {
        var value := arg.t[|BASE_URL_PREFIX|..];
        if value == "" || (cli.Some? && cli.value != Text(value)) {
          return None;
        }
        cli := Some(Text(value));
      }
      var count := if sx.takesValue(arg) && index + 1 < |args| then 2 else 1;
      Onward(args, index, count);
      index, rest := index + count, rest[count..];
    }
    return ResolveUrl(cli, environment);
  }

  // ----- stock Muse's words -----

  predicate ValueOption(a: Arg)
    requires a.Text?
  {
    a.t == "--provider" || a.t == "--base-url" || a.t == "--agents" || a.t == "--preset" || a.t == "--model"
    || a.t == "--reasoning-effort" || a.t == "--image" || a.t == "--workspace" || a.t == "--worktree-base"
    || a.t == "--worktree-existing" || a.t == "--approval-mode" || a.t == "--permission-profile"
    || a.t == "--approval-judge" || a.t == "--echo-delay-ms" || a.t == "--sandbox-network"
    || a.t == "--prompt-file" || a.t == "--context-compaction-strategy"
    || a.t == "--context-compaction-soft-threshold" || a.t == "--context-compaction-hard-threshold"
    || a.t == "--max-model-steps" || a.t == "--max-tool-output-bytes" || a.t == "--session-id"
    || a.t == "--out" || a.t == "--format"
  }

  predicate StockSubcommand(a: Arg)
    requires a.Text?
  {
    a.t == "config" || a.t == "export" || a.t == "trace" || a.t == "skills" || a.t == "sandbox"
    || a.t == "schema" || a.t == "session-message" || a.t == "init" || a.t == "exec" || a.t == "serve"
    || a.t == "resume" || a.t == "auth" || a.t == "login" || a.t == "logout"
  }

  lemma StockSpelled(a: Arg)
    ensures STOCK.takesValue(a) <==> a.Text? && ValueOption(a)
    ensures STOCK.subcommand(a) <==> a.Text? && StockSubcommand(a)
    ensures STOCK.worktree(a) <==> a == Text("-w") || a == Text("--worktree")
    ensures STOCK.worktreeMode(a) <==> a == Text("off") || a == Text("create") || a == Text("existing")
  {
  }
}
