/** Small shared vocabulary: options, results and byte strings. */
module Prelude {

  datatype Option<+T> = None | Some(value: T)

  datatype Result<+T, +E> = Ok(value: T) | Err(error: E)

  /** A byte string. Each character stands for one byte (0..255), so cutting a
      stream anywhere, also inside a multi-byte UTF-8 character, is a cut of
      the sequence. */
  type Bytes = string

  /** The UTF-8 byte-order mark. */
  const BOM: Bytes := [0xEF as char, 0xBB as char, 0xBF as char]

  function Concat(parts: seq<Bytes>): Bytes {
    if parts == [] then "" else parts[0] + Concat(parts[1..])
  }

  lemma {:induction false} ConcatAppend(a: seq<Bytes>, b: seq<Bytes>)
    ensures Concat(a + b) == Concat(a) + Concat(b)
  {
    if a == [] {
      assert a + b == b;
    } else {
      assert (a + b)[0] == a[0] && (a + b)[1..] == a[1..] + b;
      ConcatAppend(a[1..], b);
    }
  }

  predicate IsBreak(c: char) { c == '\n' || c == '\r' }

  predicate NoBreak(t: Bytes) { forall i :: 0 <= i < |t| ==> !IsBreak(t[i]) }

  predicate IsAlphanumeric(c: char) {
    'a' <= c <= 'z' || 'A' <= c <= 'Z' || '0' <= c <= '9'
  }

  /** Visible ASCII: neither a control character nor white space. */
  predicate IsGraphic(c: char) { '!' <= c <= '~' }

  predicate Graphic(t: Bytes) { forall i :: 0 <= i < |t| ==> IsGraphic(t[i]) }

  /** The text after `prefix`, or the whole text when it does not start so. */
  function StripPrefix(t: Bytes, prefix: Bytes): Bytes {
    if prefix <= t then t[|prefix|..] else t
  }

  /** Index of the first occurrence of `c`, or the length. */
  function IndexOf(t: Bytes, c: char): (i: nat)
    ensures i <= |t|
    ensures forall j :: 0 <= j < i ==> t[j] != c
    ensures i < |t| ==> t[i] == c
  {
    if t == "" then 0 else if t[0] == c then 0 else 1 + IndexOf(t[1..], c)
  }

  function Join(parts: seq<Bytes>, separator: Bytes): Bytes {
    if parts == [] then ""
    else if |parts| == 1 then parts[0]
    else parts[0] + separator + Join(parts[1..], separator)
  }

  function Decimal(n: nat): Bytes {
    if n < 10 then [(('0' as int) + n) as char] else Decimal(n / 10) + [(('0' as int) + n % 10) as char]
  }
}
