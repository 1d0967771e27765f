/** Command-line arguments as units: an option with its value, a lone argument,
    or everything from a `--` on. */
module ArgUnits {
  import opened Prelude

  /** An argument is text, or bytes that are not. */
  datatype Arg = Text(t: string) | Raw(bytes: Bytes)

  const DASHES: Arg := Text("--")

  predicate OptionLike(a: Arg) { a.Text? && "-" <= a.t }

  predicate StartsWith(a: Arg, prefix: string) { a.Text? && prefix <= a.t }

  /** The options that take a value, the stock subcommands, and the option
      whose value is optional, with the values it knows. */
  datatype Syntax = Syntax(takesValue: Arg -> bool, subcommand: Arg -> bool, worktree: Arg -> bool,
                           worktreeMode: Arg -> bool)

  /** What every scanner relies on: options look like options, subcommands and
      optional values do not. */
  ghost predicate Sensible(sx: Syntax) {
    && !sx.takesValue(DASHES)
    && (forall a :: sx.takesValue(a) ==> OptionLike(a))
    && (forall a :: sx.subcommand(a) ==> !OptionLike(a))
    && (forall a :: sx.worktreeMode(a) ==> !OptionLike(a))
    && (forall a :: sx.worktree(a) ==> OptionLike(a))
  }

  datatype Unit = Single(arg: Arg) | Paired(option: Arg, value: Arg) | Verbatim(rest: seq<Arg>)

  function Units(sx: Syntax, args: seq<Arg>): seq<Unit>
    decreases |args|
  {
    if args == [] then []
    else if args[0] == DASHES then [Verbatim(args)]
    else if sx.takesValue(args[0]) && |args| > 1 then [Paired(args[0], args[1])] + Units(sx, args[2..])
    else [Single(args[0])] + Units(sx, args[1..])
  }

  function ArgsOf(unit: Unit): seq<Arg> {
    match unit
    case Single(arg) => [arg]
    case Paired(option, value) => [option, value]
    case Verbatim(rest) => rest
  }

  function Flat(units: seq<Unit>): seq<Arg> {
    if units == [] then [] else ArgsOf(units[0]) + Flat(units[1..])
  }

  lemma {:induction false} FlatUnits(sx: Syntax, args: seq<Arg>)
    ensures Flat(Units(sx, args)) == args
    decreases |args|
  {
    if args == [] {
    } else if args[0] == DASHES {
      assert [Verbatim(args)][1..] == [] && args + [] == args;
    } else if sx.takesValue(args[0]) && |args| > 1 {
      FlatUnits(sx, args[2..]);
      assert ([Paired(args[0], args[1])] + Units(sx, args[2..]))[1..] == Units(sx, args[2..]);
    } else {
      FlatUnits(sx, args[1..]);
      assert ([Single(args[0])] + Units(sx, args[1..]))[1..] == Units(sx, args[1..]);
    }
  }

  lemma {:induction false} FlatAppend(a: seq<Unit>, b: seq<Unit>)
    ensures Flat(a + b) == Flat(a) + Flat(b)
  {
    if a == [] {
      assert a + b == b;
    } else {
      assert (a + b)[1..] == a[1..] + b;
      FlatAppend(a[1..], b);
    }
  }

  /** Lists of units that read back as themselves. */
  predicate Readable(sx: Syntax, units: seq<Unit>) {
    units == [] ||
    (match units[0]
     case Single(arg) => arg != DASHES && (sx.takesValue(arg) ==> |units| == 1) && Readable(sx, units[1..])
     case Paired(option, _) => sx.takesValue(option) && option != DASHES && Readable(sx, units[1..])
     case Verbatim(rest) => |units| == 1 && rest != [] && rest[0] == DASHES)
  }

  lemma {:induction false} ReadableReadsBack(sx: Syntax, units: seq<Unit>)
    requires Readable(sx, units)
    ensures Units(sx, Flat(units)) == units
  {
    if units != [] {
      match units[0]
      case Single(arg) =>
        ReadableReadsBack(sx, units[1..]);
        assert ([arg] + Flat(units[1..]))[1..] == Flat(units[1..]);
        if sx.takesValue(arg) {
          assert units[1..] == [];
        }
      case Paired(option, value) =>
        ReadableReadsBack(sx, units[1..]);
        assert ([option, value] + Flat(units[1..]))[2..] == Flat(units[1..]);
      case Verbatim(rest) =>
        assert units[1..] == [] && rest + [] == rest;
    }
  }

  lemma {:induction false} UnitsAreReadable(sx: Syntax, args: seq<Arg>)
    ensures Readable(sx, Units(sx, args))
    decreases |args|
  {
    if args == [] || args[0] == DASHES {
    } else if sx.takesValue(args[0]) && |args| > 1 {
      UnitsAreReadable(sx, args[2..]);
      assert ([Paired(args[0], args[1])] + Units(sx, args[2..]))[1..] == Units(sx, args[2..]);
    } else {
      UnitsAreReadable(sx, args[1..]);
      assert ([Single(args[0])] + Units(sx, args[1..]))[1..] == Units(sx, args[1..]);
      if sx.takesValue(args[0]) {
        assert args[1..] == [];
      }
    }
  }

  /** The units that are not dropped, in order. */
  function Keep(units: seq<Unit>, drop: Unit -> bool): seq<Unit> {
    if units == [] then [] else (if drop(units[0]) then [] else [units[0]]) + Keep(units[1..], drop)
  }

  lemma {:induction false} KeepIsReadable(sx: Syntax, units: seq<Unit>, drop: Unit -> bool)
    requires Readable(sx, units)
    ensures Readable(sx, Keep(units, drop))
  {
    if units != [] && !units[0].Verbatim? {
      KeepIsReadable(sx, units[1..], drop);
      assert !drop(units[0]) ==> ([units[0]] + Keep(units[1..], drop))[1..] == Keep(units[1..], drop);
      assert [] + Keep(units[1..], drop) == Keep(units[1..], drop);
      if units[0].Single? && sx.takesValue(units[0].arg) {
        assert units[1..] == [];
      }
    } else if units != [] {
      assert units[1..] == [];
    }
  }

  lemma {:induction false} KeepTwice(units: seq<Unit>, drop: Unit -> bool)
    ensures Keep(Keep(units, drop), drop) == Keep(units, drop)
  {
    if units != [] {
      KeepTwice(units[1..], drop);
      if !drop(units[0]) {
        assert ([units[0]] + Keep(units[1..], drop))[1..] == Keep(units[1..], drop);
      } else {
        assert [] + Keep(units[1..], drop) == Keep(units[1..], drop);
      }
    }
  }

  lemma {:induction false} KeptAreNotDropped(units: seq<Unit>, drop: Unit -> bool, i: nat)
    requires i < |Keep(units, drop)|
    ensures !drop(Keep(units, drop)[i]) && Keep(units, drop)[i] in units
  {
    if drop(units[0]) {
      assert [] + Keep(units[1..], drop) == Keep(units[1..], drop);
      KeptAreNotDropped(units[1..], drop, i);
    } else if i > 0 {
      KeptAreNotDropped(units[1..], drop, i - 1);
    }
  }

  /** The arguments without the dropped units. */
  function Strip(sx: Syntax, args: seq<Arg>, drop: Unit -> bool): seq<Arg> { Flat(Keep(Units(sx, args), drop)) }

  /** Stripping is a filter on units: what is left reads as the kept units, in
      order, and stripping again changes nothing. */
  lemma StripFilters(sx: Syntax, args: seq<Arg>, drop: Unit -> bool)
    ensures Units(sx, Strip(sx, args, drop)) == Keep(Units(sx, args), drop)
    ensures Strip(sx, Strip(sx, args, drop), drop) == Strip(sx, args, drop)
  {
    UnitsAreReadable(sx, args);
    KeepIsReadable(sx, Units(sx, args), drop);
    ReadableReadsBack(sx, Keep(Units(sx, args), drop));
    KeepTwice(Units(sx, args), drop);
  }

  /** From the first unit-level `--` on, everything is kept. */
  lemma {:induction false} VerbatimStays(sx: Syntax, args: seq<Arg>, drop: Unit -> bool)
    requires forall rest :: !drop(Verbatim(rest))
    ensures var units, kept := Units(sx, args), Keep(Units(sx, args), drop);
            units != [] && units[|units| - 1].Verbatim? ==> kept != [] && kept[|kept| - 1] == units[|units| - 1]
    decreases |args|
  {
    if args != [] && args[0] != DASHES {
      var rest := if sx.takesValue(args[0]) && |args| > 1 then args[2..] else args[1..];
      VerbatimStays(sx, rest, drop);
      var units := Units(sx, args);
      assert units[1..] == Units(sx, rest);
      if Units(sx, rest) != [] {
        assert units[|units| - 1] == Units(sx, rest)[|Units(sx, rest)| - 1];
      }
    }
  }
}
