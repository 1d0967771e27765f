/** The laws asked of a JSON codec can be kept: a prefix-free text for every
    JSON tree, without line breaks, and its inverse. */
module JsonText {
  import opened Prelude
  import opened Json

  ghost function Marks(n: nat): string { if n == 0 then ";" else "x" + Marks(n - 1) }

  ghost function Quoted(t: string): string {
    if t == "" then "." else Marks(t[0] as int) + Quoted(t[1..])
  }

  ghost function Signed(n: int): string { if n >= 0 then "+" + Marks(n) else "-" + Marks(-n) }

  ghost function Write(v: Value): string
    decreases v, 2, 0
  {
    match v
    case Null => "n"
    case Bool(b) => if b then "t" else "f"
    case Num(n) => "#" + Signed(n)
    case Fraction(text) => "%" + Quoted(text)
    case Str(s) => "s" + Quoted(s)
    case Arr(items) => "[" + WriteItems(v, items)
    case Obj(fields) => "{" + WriteFields(v, fields)
  }

  ghost function WriteItems(v: Value, items: seq<Value>): string
    requires v.Arr? && forall i :: 0 <= i < |items| ==> items[i] in v.items
    decreases v, 1, |items|
  {
    if items == [] then "]" else "," + (Write(items[0]) + WriteItems(v, items[1..]))
  }

  /** Members in some order that depends on the map alone. */
  ghost function WriteFields(v: Value, fields: map<string, Value>): string
    requires v.Obj? && forall key :: key in fields ==> key in v.fields && fields[key] == v.fields[key]
    decreases v, 1, |fields|
  {
    if fields == map[] then "}"
    else
      var key :| key in fields;
      assert |fields - {key}| < |fields| by { assert (fields - {key}).Keys == fields.Keys - {key}; }
      ":" + (Quoted(key) + (Write(fields[key]) + WriteFields(v, fields - {key})))
  }

  // Every text is told from what follows it.

  lemma {:induction false} MarksEnd(m: nat, n: nat, a: string, b: string)
    requires Marks(m) + a == Marks(n) + b
    ensures m == n && a == b
  {
    var s, t := Marks(m) + a, Marks(n) + b;
    assert s[0] == t[0];
    if m > 0 && n > 0 {
      assert s[1..] == Marks(m - 1) + a && t[1..] == Marks(n - 1) + b;
      MarksEnd(m - 1, n - 1, a, b);
    } else {
      assert s[0] == Marks(m)[0] && t[0] == Marks(n)[0];
      assert s[1..] == a && t[1..] == b;
    }
  }

  lemma QuotedBegins(p: string)
    ensures Quoted(p) != "" && (Quoted(p)[0] == '.' <==> p == "")
  {
    if p != "" {
      assert Quoted(p)[0] == Marks(p[0] as int)[0];
    }
  }

  lemma {:induction false} QuotedEnds(p: string, q: string, a: string, b: string)
    requires Quoted(p) + a == Quoted(q) + b
    ensures p == q && a == b
  {
    var s, t := Quoted(p) + a, Quoted(q) + b;
    QuotedBegins(p);
    QuotedBegins(q);
    assert s[0] == Quoted(p)[0] && t[0] == Quoted(q)[0];
    if p != "" && q != "" {
      assert s == Marks(p[0] as int) + (Quoted(p[1..]) + a) && t == Marks(q[0] as int) + (Quoted(q[1..]) + b);
      MarksEnd(p[0] as int, q[0] as int, Quoted(p[1..]) + a, Quoted(q[1..]) + b);
      QuotedEnds(p[1..], q[1..], a, b);
      assert p == [p[0]] + p[1..] && q == [q[0]] + q[1..];
    } else {
      assert s[1..] == a && t[1..] == b;
    }
  }

  lemma SameHead(c: char, d: char, s: string, t: string)
    requires [c] + s == [d] + t
    ensures c == d && s == t
  {
    assert ([c] + s)[0] == c && ([d] + t)[0] == d && ([c] + s)[1..] == s && ([d] + t)[1..] == t;
  }

  function Magnitude(n: int): nat { if n >= 0 then n else -n }

  lemma SignedSplits(n: int, a: string)
    ensures Signed(n) + a == [if n >= 0 then '+' else '-'] + (Marks(Magnitude(n)) + a)
  {
    Associates(if n >= 0 then "+" else "-", Marks(Magnitude(n)), a);
  }

  lemma Associates(p: string, q: string, a: string)
    ensures (p + q) + a == p + (q + a)
  {
  }

  lemma SignedEnds(m: int, n: int, a: string, b: string)
    requires Signed(m) + a == Signed(n) + b
    ensures m == n && a == b
  {
    SignedSplits(m, a);
    SignedSplits(n, b);
    SameHead(if m >= 0 then '+' else '-', if n >= 0 then '+' else '-',
             Marks(Magnitude(m)) + a, Marks(Magnitude(n)) + b);
    MarksEnd(Magnitude(m), Magnitude(n), a, b);
  }

  function Sign(v: Value): char {
    match v
    case Null => 'n'
    case Bool(b) => if b then 't' else 'f'
    case Num(_) => '#'
    case Fraction(_) => '%'
    case Str(_) => 's'
    case Arr(_) => '['
    case Obj(_) => '{'
  }

  /** A text and what follows it, past its first character. */
  ghost function Later(v: Value, a: string): string {
    match v
    case Null => a
    case Bool(_) => a
    case Num(n) => Signed(n) + a
    case Fraction(text) => Quoted(text) + a
    case Str(s) => Quoted(s) + a
    case Arr(items) => WriteItems(v, items) + a
    case Obj(fields) => WriteFields(v, fields) + a
  }

  lemma WriteSplits(v: Value, a: string)
    ensures Write(v) + a == [Sign(v)] + Later(v, a)
  {
    match v
    case Num(n) => assert "#" + Signed(n) + a == "#" + (Signed(n) + a);
    case Fraction(text) => assert "%" + Quoted(text) + a == "%" + (Quoted(text) + a);
    case Str(s) => assert "s" + Quoted(s) + a == "s" + (Quoted(s) + a);
    case Arr(items) => assert "[" + WriteItems(v, items) + a == "[" + (WriteItems(v, items) + a);
    case Obj(fields) => assert "{" + WriteFields(v, fields) + a == "{" + (WriteFields(v, fields) + a);
    case _ =>
  }

  lemma {:induction false} WriteEnds(v: Value, w: Value, a: string, b: string)
    requires Write(v) + a == Write(w) + b
    ensures v == w && a == b
    decreases v, 2, 0
  {
    WriteSplits(v, a);
    WriteSplits(w, b);
    SameHead(Sign(v), Sign(w), Later(v, a), Later(w, b));
    match v
    case Null =>
    case Bool(_) =>
    case Num(n) => SignedEnds(n, w.n, a, b);
    case Fraction(text) => QuotedEnds(text, w.text, a, b);
    case Str(s) => QuotedEnds(s, w.s, a, b);
    case Arr(items) => ItemsEnd(v, w, items, w.items, a, b);
    case Obj(fields) => FieldsEnd(v, w, fields, w.fields, a, b);
  }

  lemma {:induction false} ItemsEnd(v: Value, w: Value, p: seq<Value>, q: seq<Value>, a: string, b: string)
    requires v.Arr? && (forall i :: 0 <= i < |p| ==> p[i] in v.items) && w.Arr?
             && (forall i :: 0 <= i < |q| ==> q[i] in w.items)
    requires WriteItems(v, p) + a == WriteItems(w, q) + b
    ensures p == q && a == b
    decreases v, 1, |p|
  {
    var s, t := WriteItems(v, p) + a, WriteItems(w, q) + b;
    assert s[0] == (if p == [] then ']' else ',') && t[0] == (if q == [] then ']' else ',');
    if p == [] {
      SameHead(']', ']', a, b);
    } else {
      var restA, restB := WriteItems(v, p[1..]) + a, WriteItems(w, q[1..]) + b;
      assert s == [','] + (Write(p[0]) + restA) && t == [','] + (Write(q[0]) + restB);
      SameHead(',', ',', Write(p[0]) + restA, Write(q[0]) + restB);
      WriteEnds(p[0], q[0], restA, restB);
      ItemsEnd(v, w, p[1..], q[1..], a, b);
      assert p == [p[0]] + p[1..] && q == [q[0]] + q[1..];
    }
  }

  /** The first member written, and the rest. */
  lemma FieldsSplit(v: Value, fields: map<string, Value>, a: string) returns (key: string)
    requires v.Obj? && (forall key :: key in fields ==> key in v.fields && fields[key] == v.fields[key])
             && fields != map[]
    ensures key in fields && |fields - {key}| < |fields|
    ensures WriteFields(v, fields) + a
         == [':'] + (Quoted(key) + (Write(fields[key]) + (WriteFields(v, fields - {key}) + a)))
  {
    var first :| first in fields
      && WriteFields(v, fields) == ":" + (Quoted(first) + (Write(fields[first]) + WriteFields(v, fields - {first})));
    key := first;
    assert (fields - {key}).Keys == fields.Keys - {key};
    Regroup(Quoted(key), Write(fields[key]), WriteFields(v, fields - {key}), a);
  }

  lemma Regroup(p: string, q: string, r: string, a: string)
    ensures (":" + (p + (q + r))) + a == [':'] + (p + (q + (r + a)))
  {
    assert (q + r) + a == q + (r + a);
    assert (p + (q + r)) + a == p + ((q + r) + a);
  }

  lemma {:induction false} FieldsEnd(v: Value, w: Value, p: map<string, Value>, q: map<string, Value>, a: string,
                                     b: string)
    requires v.Obj? && (forall key :: key in p ==> key in v.fields && p[key] == v.fields[key])
    requires w.Obj? && (forall key :: key in q ==> key in w.fields && q[key] == w.fields[key])
    requires WriteFields(v, p) + a == WriteFields(w, q) + b
    ensures p == q && a == b
    decreases v, 1, |p|
  {
    FieldsBegin(v, p, a);
    FieldsBegin(w, q, b);
    if p == map[] {
      SameHead('}', '}', a, b);
    } else {
      var k := FieldsSplit(v, p, a);
      var l := FieldsSplit(w, q, b);
      var restA, restB := WriteFields(v, p - {k}) + a, WriteFields(w, q - {l}) + b;
      MembersEnd(k, l, p[k], q[l], restA, restB);
      WriteEnds(p[k], q[l], restA, restB);
      FieldsEnd(v, w, p - {k}, q - {l}, a, b);
      SameMaps(p, q, k);
    }
  }

  lemma FieldsBegin(v: Value, fields: map<string, Value>, a: string)
    requires v.Obj? && forall key :: key in fields ==> key in v.fields && fields[key] == v.fields[key]
    ensures WriteFields(v, fields) != "" && ((WriteFields(v, fields) + a)[0] == '}' <==> fields == map[])
  {
    if fields != map[] {
      var key := FieldsSplit(v, fields, a);
    }
  }

  lemma MembersEnd(k: string, l: string, x: Value, y: Value, restA: string, restB: string)
    requires [':'] + (Quoted(k) + (Write(x) + restA)) == [':'] + (Quoted(l) + (Write(y) + restB))
    ensures k == l && Write(x) + restA == Write(y) + restB
  {
    SameHead(':', ':', Quoted(k) + (Write(x) + restA), Quoted(l) + (Write(y) + restB));
    QuotedEnds(k, l, Write(x) + restA, Write(y) + restB);
  }

  lemma SameMaps(p: map<string, Value>, q: map<string, Value>, k: string)
    requires k in p && k in q && p[k] == q[k] && p - {k} == q - {k}
    ensures p == q
  {
    assert p == (p - {k})[k := p[k]] && q == (q - {k})[k := q[k]];
  }

  // ----- the codec -----

  lemma {:induction false} MarksAreGraphic(n: nat)
    ensures Graphic(Marks(n))
  {
    if n > 0 {
      MarksAreGraphic(n - 1);
    }
  }

  lemma {:induction false} QuotedIsGraphic(t: string)
    ensures Graphic(Quoted(t))
  {
    if t != "" {
      MarksAreGraphic(t[0] as int);
      QuotedIsGraphic(t[1..]);
    }
  }

  lemma {:induction false} WrittenIsGraphic(v: Value)
    ensures Graphic(Write(v))
    decreases v, 2, 0
  {
    match v
    case Num(n) => MarksAreGraphic(Magnitude(n));
    case Fraction(text) => QuotedIsGraphic(text);
    case Str(s) => QuotedIsGraphic(s);
    case Arr(items) => ItemsAreGraphic(v, items);
    case Obj(fields) => FieldsAreGraphic(v, fields);
    case _ =>
  }

  lemma {:induction false} ItemsAreGraphic(v: Value, items: seq<Value>)
    requires v.Arr? && forall i :: 0 <= i < |items| ==> items[i] in v.items
    ensures Graphic(WriteItems(v, items))
    decreases v, 1, |items|
  {
    if items != [] {
      WrittenIsGraphic(items[0]);
      ItemsAreGraphic(v, items[1..]);
    }
  }

  lemma {:induction false} FieldsAreGraphic(v: Value, fields: map<string, Value>)
    requires v.Obj? && forall key :: key in fields ==> key in v.fields && fields[key] == v.fields[key]
    ensures Graphic(WriteFields(v, fields))
    decreases v, 1, |fields|
  {
    if fields != map[] {
      var key :| key in fields
        && WriteFields(v, fields) == ":" + (Quoted(key) + (Write(fields[key]) + WriteFields(v, fields - {key})));
      assert |fields - {key}| < |fields| by { assert (fields - {key}).Keys == fields.Keys - {key}; }
      QuotedIsGraphic(key);
      WrittenIsGraphic(fields[key]);
      FieldsAreGraphic(v, fields - {key});
    }
  }

  lemma WriteIsInjective(v: Value, w: Value)
    requires Write(v) == Write(w)
    ensures v == w
  {
    assert Write(v) + "" == Write(v) && Write(w) + "" == Write(w);
    WriteEnds(v, w, "", "");
  }

  ghost function Read(t: string): Option<Value> {
    if exists v :: Write(v) == t then
      var v :| Write(v) == t;
      Some(v)
    else None
  }

  lemma SentinelIsNoText(v: Value)
    ensures Write(v) != "[DONE]"
  {
    WriteSplits(v, "");
    assert Write(v) + "" == Write(v);
    assert Write(v)[0] == Sign(v) && "[DONE]"[0] == '[' && "[DONE]"[1] == 'D';
    if v.Arr? {
      assert Write(v)[1] == WriteItems(v, v.items)[0];
    }
  }

  function DropReturns(t: string): string {
    if t != "" && t[|t| - 1] == '\r' then DropReturns(t[..|t| - 1]) else t
  }

  ghost function SampleCodec(): Codec {
    Codec(v => Write(v), t => Read(DropReturns(t)), t => true, t => DropReturns(t), t => false)
  }

  lemma DroppedAlike(t: string)
    ensures DropReturns(t + "\r") == DropReturns(t)
  {
    assert (t + "\r")[..|t|] == t;
  }

  lemma {:induction false} QuotedIsAsLong(t: string)
    ensures |Quoted(t)| >= |t|
  {
    if t != "" {
      QuotedIsAsLong(t[1..]);
    }
  }

  lemma {:induction false} ItemsAreAsLong(v: Value, items: seq<Value>, i: nat)
    requires v.Arr? && (forall j :: 0 <= j < |items| ==> items[j] in v.items) && i < |items|
    ensures |WriteItems(v, items)| >= |Write(items[i])|
    decreases |items|
  {
    if i > 0 {
      ItemsAreAsLong(v, items[1..], i - 1);
    }
  }

  lemma {:induction false} FieldsAreAsLong(v: Value, fields: map<string, Value>, key: string)
    requires v.Obj? && (forall k :: k in fields ==> k in v.fields && fields[k] == v.fields[k]) && key in fields
    ensures |WriteFields(v, fields)| >= |Write(fields[key])|
    decreases |fields|
  {
    var first := FieldsSplit(v, fields, "");
    assert WriteFields(v, fields) + "" == WriteFields(v, fields);
    if key != first {
      FieldsAreAsLong(v, fields - {first}, key);
    }
  }

  lemma ArrayIsAsLong(items: seq<Value>, i: nat)
    requires i < |items|
    ensures |Write(Arr(items))| >= |Write(items[i])|
  {
    ItemsAreAsLong(Arr(items), items, i);
  }

  lemma ObjectIsAsLong(fields: map<string, Value>, key: string)
    requires key in fields
    ensures |Write(Obj(fields))| >= |Write(fields[key])|
  {
    FieldsAreAsLong(Obj(fields), fields, key);
  }

  lemma StringIsAsLong(s: string)
    ensures |Write(Str(s))| >= |s|
  {
    QuotedIsAsLong(s);
  }

  lemma WrittenIsTrim(v: Value)
    ensures DropReturns(Write(v)) == Write(v)
  {
    WrittenIsGraphic(v);
  }

  lemma WrittenReads(v: Value)
    ensures Read(DropReturns(Write(v))) == Some(v) && NoBreak(Write(v))
  {
    WrittenIsGraphic(v);
    WrittenIsTrim(v);
    assert Read(Write(v)).Some?;
    WriteIsInjective(v, Read(Write(v)).value);
  }

  lemma SentinelUnread()
    ensures Read(DropReturns("[DONE]")).None?
  {
    assert "[DONE]"[5] == ']';
    forall v
      ensures Write(v) != "[DONE]"
    {
      SentinelIsNoText(v);
    }
  }

  lemma SampleSpells()
    ensures Spells(SampleCodec())
  {
    forall s: string
      ensures |SampleCodec().encode(Str(s))| >= |s|
    {
      StringIsAsLong(s);
    }
    forall items: seq<Value>, i: nat | i < |items|
      ensures |SampleCodec().encode(Arr(items))| >= |SampleCodec().encode(items[i])|
    {
      ArrayIsAsLong(items, i);
    }
    forall fields: map<string, Value>, key: string | key in fields
      ensures |SampleCodec().encode(Obj(fields))| >= |SampleCodec().encode(fields[key])|
    {
      ObjectIsAsLong(fields, key);
    }
    forall v: Value
      ensures SampleCodec().trim(SampleCodec().encode(v)) == SampleCodec().encode(v)
    {
      WrittenIsTrim(v);
    }
  }

  lemma SampleSkipsReturns()
    ensures SkipsReturns(SampleCodec())
  {
    forall t: Bytes
      ensures SampleCodec().parse(t + "\r") == SampleCodec().parse(t)
      ensures SampleCodec().trim(t + "\r") == SampleCodec().trim(t)
    {
      DroppedAlike(t);
    }
  }

  lemma SampleParses()
    ensures Lawful(SampleCodec())
  {
    forall v: Value
      ensures SampleCodec().parse(SampleCodec().encode(v)) == Some(v) && NoBreak(SampleCodec().encode(v))
    {
      WrittenReads(v);
    }
    SentinelUnread();
  }

  /** There is a codec that keeps every law stated of one. */
  lemma SampleIsLawful()
    ensures Lawful(SampleCodec()) && SkipsReturns(SampleCodec()) && Spells(SampleCodec())
  {
    SampleParses();
    SampleSkipsReturns();
    SampleSpells();
  }
}
