/** Tool names on the Z.ai wire: how they are encoded, recorded and decoded. */
module ToolNames {
  import opened Prelude

  /** `decoded` gives the Muse-facing name of each wire name handed out,
      `freeform` the wire names of free-form tools. */
  datatype Names = Names(decoded: map<string, string>, freeform: set<string>)

  const NO_NAMES := Names(map[], {})

  /** An unknown wire name stands for itself. */
  function Decode(names: Names, wire: string): string {
    if wire in names.decoded then names.decoded[wire] else wire
  }

  const MAX_NAME_BYTES: nat := 64

  /** Every namespace dot becomes two underscores. */
  function ReplaceDots(name: string): string {
    if name == "" then "" else (if name[0] == '.' then "__" else [name[0]]) + ReplaceDots(name[1..])
  }

  lemma DotsReplacedAppend(a: string, b: string)
    ensures ReplaceDots(a + b) == ReplaceDots(a) + ReplaceDots(b)
  {
    if a == "" {
      assert a + b == b;
    } else {
      assert (a + b)[1..] == a[1..] + b;
      DotsReplacedAppend(a[1..], b);
    }
  }

  lemma {:induction false} DotlessStays(part: string)
    requires '.' !in part
    ensures ReplaceDots(part) == part
  {
    if part != "" {
      DotlessStays(part[1..]);
    }
  }

  /** A dotted name is written with two underscores between its parts. */
  lemma {:induction false} PartsReplaced(parts: seq<string>)
    requires forall i :: 0 <= i < |parts| ==> '.' !in parts[i]
    ensures ReplaceDots(Join(parts, ".")) == Join(parts, "__")
  {
    if parts != [] {
      DotlessStays(parts[0]);
      if |parts| > 1 {
        PartsReplaced(parts[1..]);
        assert ReplaceDots(".") == "__" by { assert "."[1..] == ""; }
        DotsReplacedAppend(parts[0] + ".", Join(parts[1..], "."));
        DotsReplacedAppend(parts[0], ".");
      }
    }
  }

  /** A name has a wire name if and only if, its dots replaced, it has one to 64
      characters, each an ASCII letter or digit, underscore or hyphen. */
  lemma EncodesExactly(name: string)
    ensures Encode(name).Some? <==>
              && 1 <= |ReplaceDots(name)| <= 64
              && forall i :: 0 <= i < |ReplaceDots(name)| ==>
                   var c := ReplaceDots(name)[i];
                   'a' <= c <= 'z' || 'A' <= c <= 'Z' || '0' <= c <= '9' || c == '_' || c == '-'
  {
  }

  predicate WireChar(c: char) { IsAlphanumeric(c) || c == '_' || c == '-' }

  /** The name grammar Z.ai accepts. */
  predicate WireName(name: string) {
    name != "" && |name| <= MAX_NAME_BYTES && forall i :: 0 <= i < |name| ==> WireChar(name[i])
  }

  function Encode(name: string): Option<string> {
    if WireName(ReplaceDots(name)) then Some(ReplaceDots(name)) else None
  }

  /** A name being used: by a declared tool or by a call in the history. */
  datatype Use = Use(name: string, freeform: bool)

  /** Hands out the wire name of `use`, unless it has none or another name
      already has it. */
  function Record(names: Names, use: Use): Option<Names> {
    match Encode(use.name)
    case None => None
    case Some(wire) =>
      if wire in names.decoded && names.decoded[wire] != use.name then None
      else Some(Names(names.decoded[wire := use.name],
                      if use.freeform then names.freeform + {wire} else names.freeform))
  }

  function RecordAll(names: Names, uses: seq<Use>): Option<Names>
    decreases |uses|
  {
    if uses == [] then Some(names)
    else
      match Record(names, uses[0])
      case None => None
      case Some(next) => RecordAll(next, uses[1..])
  }

  /** The table the translator updates while it walks a request. */
  class ToolTable {
    var decoded: map<string, string>
    var freeform: set<string>

    ghost function View(): Names
      reads this
    {
      Names(decoded, freeform)
    }

    constructor ()
      ensures View() == NO_NAMES
    {
      decoded, freeform := map[], {};
    }

    method RecordUse(name: string, isFreeform: bool) returns (wire: Option<string>)
      modifies this
      ensures match Record(old(View()), Use(name, isFreeform))
              case None => wire.None? && View() == old(View())
              case Some(names) => wire == Encode(name) && wire.Some? && View() == names
    {
      wire := Encode(name);
      if wire.None? {
        return;
      }
      if wire.value in decoded && decoded[wire.value] != name {
        return None;
      }
      decoded := decoded[wire.value := name];
      if isFreeform {
        freeform := freeform + {wire.value};
      }
    }
  }

  // ----- what a table guarantees -----

  /** Every wire name handed out encodes the name it stands for. */
  ghost predicate Consistent(names: Names) {
    && (forall wire :: wire in names.decoded ==> Encode(names.decoded[wire]) == Some(wire))
    && names.freeform <= names.decoded.Keys
  }

  /** A wire name encodes to itself, so an unknown name survives a replay. */
  lemma {:induction false} WireNameEncodesToItself(wire: string)
    requires forall i :: 0 <= i < |wire| ==> WireChar(wire[i])
    ensures ReplaceDots(wire) == wire
    decreases |wire|
  {
    if wire != "" {
      assert forall i :: 0 <= i < |wire[1..]| ==> wire[1..][i] == wire[i + 1];
      WireNameEncodesToItself(wire[1..]);
    }
  }

  /** No two distinct names among `uses`, nor one of them and a recorded name,
      share a wire name. */
  ghost predicate Clashless(names: Names, uses: seq<Use>) {
    && (forall i :: 0 <= i < |uses| ==>
          Encode(uses[i].name).Some?
          && (Encode(uses[i].name).value in names.decoded ==>
                names.decoded[Encode(uses[i].name).value] == uses[i].name))
    && (forall i, j :: 0 <= i < j < |uses| && Encode(uses[i].name) == Encode(uses[j].name) ==>
          uses[i].name == uses[j].name)
  }

  lemma ClashlessStep(names: Names, uses: seq<Use>, next: Names)
    requires uses != [] && Record(names, uses[0]) == Some(next)
    ensures Clashless(names, uses) <==> Clashless(next, uses[1..])
  {
    var wire := Encode(uses[0].name).value;
    if Clashless(names, uses) {
      forall i | 0 <= i < |uses[1..]|
        ensures var w := Encode(uses[1..][i].name);
                w.Some? && (w.value in next.decoded ==> next.decoded[w.value] == uses[1..][i].name)
      {
        assert uses[1..][i] == uses[i + 1];
        assert Encode(uses[0].name) == Encode(uses[i + 1].name) ==> uses[0].name == uses[i + 1].name;
      }
    }
    if Clashless(next, uses[1..]) {
      assert forall i :: 0 < i < |uses| ==> uses[i] == uses[1..][i - 1];
      forall i | 0 <= i < |uses|
        ensures var w := Encode(uses[i].name);
                w.Some? && (w.value in names.decoded ==> names.decoded[w.value] == uses[i].name)
      {
        if i > 0 {
          assert Encode(uses[1..][i - 1].name).Some?;
        }
      }
      forall i, j | 0 <= i < j < |uses| && Encode(uses[i].name) == Encode(uses[j].name)
        ensures uses[i].name == uses[j].name
      {
        if i == 0 {
          assert next.decoded[wire] == uses[1..][j - 1].name;
        } else {
          assert uses[1..][i - 1].name == uses[1..][j - 1].name;
        }
      }
    }
  }

  /** Recording succeeds exactly when every name fits the grammar and no two
      distinct names share a wire name. */
  lemma {:induction false} RecordingSucceeds(names: Names, uses: seq<Use>)
    ensures RecordAll(names, uses).Some? <==> Clashless(names, uses)
    decreases |uses|
  {
    if uses != [] {
      match Record(names, uses[0])
      case None => assert RecordAll(names, uses).None? && !Clashless(names, uses);
      case Some(next) =>
        ClashlessStep(names, uses, next);
        RecordingSucceeds(next, uses[1..]);
    }
  }

  /** After recording, every used name has a wire name of the grammar that
      decodes back to it and that is free-form exactly when some use was. */
  lemma {:induction false} RecordedNamesDecode(names: Names, uses: seq<Use>)
    requires Consistent(names) && RecordAll(names, uses).Some?
    ensures var after := RecordAll(names, uses).value;
            && Consistent(after)
            && (forall wire :: wire in names.decoded ==>
                  wire in after.decoded && after.decoded[wire] == names.decoded[wire])
            && (forall i :: 0 <= i < |uses| ==>
                  var wire := Encode(uses[i].name);
                  wire.Some? && WireName(wire.value) && Decode(after, wire.value) == uses[i].name
                  && wire.value in after.decoded)
            && (forall wire :: wire in after.freeform <==>
                  || wire in names.freeform
                  || exists i :: 0 <= i < |uses| && uses[i].freeform && Encode(uses[i].name) == Some(wire))
    decreases |uses|
  {
    if uses != [] {
      var next := Record(names, uses[0]).value;
      RecordedNamesDecode(next, uses[1..]);
      var after := RecordAll(names, uses).value;
      assert forall i :: 0 < i < |uses| ==> uses[i] == uses[1..][i - 1];
      assert forall i :: 0 <= i < |uses[1..]| ==> uses[1..][i] == uses[i + 1];
    }
  }

  /** Distinct names have distinct wire names. */
  lemma DistinctNamesDistinctWires(uses: seq<Use>, i: nat, j: nat)
    requires i < |uses| && j < |uses| && RecordAll(NO_NAMES, uses).Some? && uses[i].name != uses[j].name
    ensures Encode(uses[i].name) != Encode(uses[j].name)
  {
    RecordedNamesDecode(NO_NAMES, uses);
  }

  /** A call replayed under its decoded name gets its old wire name again. */
  lemma ReplayedNameKeepsWire(names: Names, wire: string)
    requires Consistent(names) && (wire in names.decoded || WireName(wire))
    ensures Encode(Decode(names, wire)) == Some(wire)
  {
    if wire !in names.decoded {
      WireNameEncodesToItself(wire);
    }
  }
}
