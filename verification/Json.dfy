/** JSON trees, and the laws a JSON text codec is asked to keep. */
module Json {
  import opened Prelude

  const U64_MAX: nat := 0xFFFF_FFFF_FFFF_FFFF

  /** Object members are a map, as in `serde_json`'s default (sorted) map.
      `Fraction` holds any number that is not an integer. */
  datatype Value =
    | Null
    | Bool(b: bool)
    | Num(n: int)
    | Fraction(text: string)
    | Str(s: string)
    | Arr(items: seq<Value>)
    | Obj(fields: map<string, Value>)

  function Get(v: Value, key: string): Option<Value> {
    if v.Obj? && key in v.fields then Some(v.fields[key]) else None
  }

  function At(v: Option<Value>, key: string): Option<Value> {
    if v.Some? then Get(v.value, key) else None
  }

  /** Element `i` of an array. */
  function ItemAt(v: Option<Value>, i: nat): Option<Value> {
    if v.Some? && v.value.Arr? && i < |v.value.items| then Some(v.value.items[i]) else None
  }

  function AsStr(v: Option<Value>): Option<string> {
    if v.Some? && v.value.Str? then Some(v.value.s) else None
  }

  function AsU64(v: Option<Value>): Option<nat> {
    if v.Some? && v.value.Num? && 0 <= v.value.n <= U64_MAX then Some(v.value.n) else None
  }

  /** The text behind an optional string field, where absent, not a string and
      empty are all treated alike. */
  function TextOf(v: Option<Value>): string {
    if AsStr(v).Some? then AsStr(v).value else ""
  }

  /** What the gateway takes from its libraries: JSON printing and parsing,
      UTF-8 checking, Unicode trimming, and "contains a Unicode control or
      white-space character". */
  datatype Codec = Codec(
    encode: Value -> Bytes,
    parse: Bytes -> Option<Value>,
    utf8: Bytes -> bool,
    trim: Bytes -> Bytes,
    blank: Bytes -> bool)

  /** RFC 8259: printing is inverted by parsing and escapes control characters
      (section 7), and the stream sentinel is not a JSON text. ASCII bytes
      never make or break UTF-8, and visible ASCII has no blank. */
  ghost predicate Lawful(c: Codec) {
    && (forall v: Value :: c.parse(c.encode(v)) == Some(v))
    && (forall v: Value :: NoBreak(c.encode(v)) && c.utf8(c.encode(v)))
    && c.parse("[DONE]").None? && c.utf8("")
    && (forall t: Bytes, a: char :: a < 128 as char ==> c.utf8(t + [a]) == c.utf8(t))
    && (forall t: Bytes, a: char :: a < 128 as char ==> c.utf8([a] + t) == c.utf8(t))
    && (forall t: Bytes :: Graphic(t) ==> !c.blank(t))
  }

  /** A carriage return after a JSON text, or at the end of text to be trimmed,
      is white space (section 2). */
  ghost predicate SkipsReturns(c: Codec) {
    && (forall t: Bytes :: c.parse(t + "\r") == c.parse(t))
    && (forall t: Bytes :: c.trim(t + "\r") == c.trim(t))
  }

  /** Printed JSON spells out strings and parts, with no space around it. */
  ghost predicate Spells(c: Codec) {
    && (forall s: string :: |c.encode(Str(s))| >= |s|)
    && (forall items: seq<Value>, i: nat :: i < |items| ==> |c.encode(Arr(items))| >= |c.encode(items[i])|)
    && (forall fields: map<string, Value>, key: string :: key in fields ==>
          |c.encode(Obj(fields))| >= |c.encode(fields[key])|)
    && (forall v: Value :: c.trim(c.encode(v)) == c.encode(v))
  }
}
