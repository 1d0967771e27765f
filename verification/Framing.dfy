/** The two event-stream frame scanners. A frame runs through the first blank
    line; lines end in LF, CR LF or CR (WHATWG HTML, section 9.2.6). */
module Framing {
  import opened Prelude

  /** The gateway's scanner from `index`, the current line having begun at
      `lineStart`. A carriage return that is the last byte decides nothing: a
      line feed may still follow. */
  function Scan(b: Bytes, lineStart: nat, index: nat): (r: Option<nat>)
    requires lineStart <= index <= |b|
    ensures r.Some? ==> index < r.value <= |b|
    decreases |b| - index
  {
    if index == |b| then None
    else if !IsBreak(b[index]) then Scan(b, lineStart, index + 1)
    else if b[index] == '\r' && index + 1 == |b| then None
    else
      var end := if b[index] == '\r' && b[index + 1] == '\n' then index + 2 else index + 1;
      if index == lineStart then Some(end) else Scan(b, end, end)
  }

  function FrameLen(b: Bytes): (r: Option<nat>)
    ensures r.Some? ==> 0 < r.value <= |b|
  {
    Scan(b, 0, 0)
  }

  /** The Z.ai scanner: a trailing carriage return ends its line at once. */
  function EagerScan(b: Bytes, lineStart: nat, index: nat): (r: Option<nat>)
    requires lineStart <= index <= |b|
    ensures r.Some? ==> index < r.value <= |b|
    decreases |b| - index
  {
    if index == |b| then None
    else if !IsBreak(b[index]) then EagerScan(b, lineStart, index + 1)
    else
      var end := if b[index] == '\r' && index + 1 < |b| && b[index + 1] == '\n' then index + 2 else index + 1;
      if index == lineStart then Some(end) else EagerScan(b, end, end)
  }

  function EagerFrameLen(b: Bytes): (r: Option<nat>)
    ensures r.Some? ==> 0 < r.value <= |b|
  {
    EagerScan(b, 0, 0)
  }

  method CompleteFrameLen(buffer: Bytes) returns (r: Option<nat>)
    ensures r == FrameLen(buffer)
  {
    var lineStart, index := 0, 0;
    while index < |buffer|
      invariant lineStart <= index <= |buffer|
      invariant FrameLen(buffer) == Scan(buffer, lineStart, index)
    {
      var lineEnd;
      if buffer[index] == '\n' {
        lineEnd := index + 1;
      } else if buffer[index] == '\r' {
        if index + 1 == |buffer| {
          return None;
        }
        lineEnd := if buffer[index + 1] == '\n' then index + 2 else index + 1;
      } else {
        index := index + 1;
        continue;
      }
      if index == lineStart {
        return Some(lineEnd);
      }
      lineStart, index := lineEnd, lineEnd;
    }
    return None;
  }

  method CompleteFrameLenEager(buffer: Bytes) returns (r: Option<nat>)
    ensures r == EagerFrameLen(buffer)
  {
    var lineStart, index := 0, 0;
    while index < |buffer|
      invariant lineStart <= index <= |buffer|
      invariant EagerFrameLen(buffer) == EagerScan(buffer, lineStart, index)
    {
      var byte := buffer[index];
      if byte != '\n' && byte != '\r' {
        index := index + 1;
        continue;
      }
      var lineEnd := index;
      var next := if byte == '\r' && index + 1 < |buffer| && buffer[index + 1] == '\n' then index + 2 else index + 1;
      if lineEnd == lineStart {
        return Some(next);
      }
      lineStart, index := next, next;
    }
    return None;
  }

  /** The complete frames of a byte string, and what is left after them. */
  function Frames(b: Bytes): seq<Bytes>
    decreases |b|
  {
    match FrameLen(b)
    case None => []
    case Some(n) => [b[..n]] + Frames(b[n..])
  }

  function Tail(b: Bytes): Bytes
    decreases |b|
  {
    match FrameLen(b)
    case None => b
    case Some(n) => Tail(b[n..])
  }

  /** Cutting a stream into frames loses and invents nothing. */
  lemma {:induction false} FramesCoverStream(b: Bytes)
    ensures Concat(Frames(b)) + Tail(b) == b
    decreases |b|
  {
    match FrameLen(b)
    case None =>
    case Some(n) =>
      FramesCoverStream(b[n..]);
      assert Frames(b)[0] == b[..n] && Frames(b)[1..] == Frames(b[n..]);
      assert b[..n] + b[n..] == b;
  }

  lemma {:induction false} ScanIgnoresLater(b: Bytes, c: Bytes, lineStart: nat, index: nat)
    requires lineStart <= index <= |b|
    requires Scan(b, lineStart, index).Some?
    ensures Scan(b + c, lineStart, index) == Scan(b, lineStart, index)
    decreases |b| - index
  {
    assert forall i :: 0 <= i < |b| ==> (b + c)[i] == b[i];
    if !IsBreak(b[index]) {
      ScanIgnoresLater(b, c, lineStart, index + 1);
    } else if index != lineStart {
      var end := if b[index] == '\r' && b[index + 1] == '\n' then index + 2 else index + 1;
      ScanIgnoresLater(b, c, end, end);
    }
  }

  lemma {:induction false} ScanFindsLate(b: Bytes, c: Bytes, lineStart: nat, index: nat)
    requires lineStart <= index <= |b|
    requires Scan(b, lineStart, index).None?
    ensures Scan(b + c, lineStart, index).Some? ==> Scan(b + c, lineStart, index).value >= |b|
    decreases |b| - index
  {
    assert forall i :: 0 <= i < |b| ==> (b + c)[i] == b[i];
    if index == |b| || (b[index] == '\r' && index + 1 == |b|) {
    } else if !IsBreak(b[index]) {
      ScanFindsLate(b, c, lineStart, index + 1);
    } else {
      var end := if b[index] == '\r' && b[index + 1] == '\n' then index + 2 else index + 1;
      ScanFindsLate(b, c, end, end);
    }
  }

  /** A frame once found stays found, whatever arrives later. */
  lemma FrameLenStable(b: Bytes, c: Bytes)
    requires FrameLen(b).Some?
    ensures FrameLen(b + c) == FrameLen(b)
  {
    ScanIgnoresLater(b, c, 0, 0);
  }

  /** A frame found only after more input covers everything buffered before. */
  lemma FrameLenLate(b: Bytes, c: Bytes)
    requires FrameLen(b).None?
    ensures FrameLen(b + c).Some? ==> FrameLen(b + c).value >= |b|
  {
    ScanFindsLate(b, c, 0, 0);
  }

  /** The Z.ai scanner has no such stability: a blank CR LF cut between its two
      bytes ends the frame one byte early. */
  lemma EagerFrameLenUnstable()
    ensures EagerFrameLen("\r") == Some(1) && EagerFrameLen("\r" + "\n") == Some(2)
  {
    assert ("\r" + "\n") == ['\r', '\n'];
  }

  lemma {:induction false} FramesAppend(b: Bytes, c: Bytes)
    ensures Frames(b + c) == Frames(b) + Frames(Tail(b) + c)
    ensures Tail(b + c) == Tail(Tail(b) + c)
    decreases |b|
  {
    match FrameLen(b)
    case None =>
    case Some(n) =>
      FrameLenStable(b, c);
      assert (b + c)[..n] == b[..n] && (b + c)[n..] == b[n..] + c;
      FramesAppend(b[n..], c);
  }

  /** Bytes without a line break are skipped. */
  lemma {:induction false} ScanSkips(b: Bytes, lineStart: nat, index: nat, to: nat)
    requires lineStart <= index <= to <= |b|
    requires forall i :: index <= i < to ==> !IsBreak(b[i])
    ensures Scan(b, lineStart, index) == Scan(b, lineStart, to)
    decreases |b| - index
  {
    if index < to {
      ScanSkips(b, lineStart, index + 1, to);
    }
  }

  /** Two non-empty lines and a blank one, ended by line feeds, are one frame. */
  lemma TwoLineFrame(first: Bytes, second: Bytes, rest: Bytes)
    requires first != "" && second != "" && NoBreak(first) && NoBreak(second)
    ensures var frame := first + "\n" + second + "\n\n";
            FrameLen(frame + rest) == Some(|frame|)
  {
    var frame := first + "\n" + second + "\n\n";
    var b := frame + rest;
    var m, e := |first|, |first| + 1 + |second|;
    assert forall i :: 0 <= i < m ==> b[i] == first[i];
    assert b[m] == '\n';
    assert forall i :: m + 1 <= i < e ==> b[i] == second[i - m - 1];
    assert b[e] == '\n' && b[e + 1] == '\n';
    ScanSkips(b, 0, 0, m);
    ScanSkips(b, m + 1, m + 1, e);
    assert Scan(b, e + 1, e + 1) == Some(e + 2);
  }

  // ----- the event-stream grammar -----

  /** A line end at `mid`. A lone carriage return is known to be one only once
      another byte than a line feed follows. */
  predicate EndsLine(b: Bytes, mid: nat, to: nat) {
    && mid < to <= |b|
    && (b[mid..to] == "\n" || b[mid..to] == "\r\n" || (b[mid..to] == "\r" && to < |b| && b[to] != '\n'))
  }

  ghost predicate NonBlankLine(b: Bytes, from: nat, to: nat) {
    exists mid :: from < mid < |b| && NoBreak(b[from..mid]) && EndsLine(b, mid, to)
  }

  /** Non-blank lines from each start to the next, and a blank one up to `n`. */
  ghost predicate LinesThroughBlank(b: Bytes, starts: seq<nat>, n: nat) {
    && starts != []
    && (forall i | 0 <= i < |starts| - 1 :: NonBlankLine(b, starts[i], starts[i + 1]))
    && EndsLine(b, starts[|starts| - 1], n)
  }

  /** The first `n` bytes are non-blank lines and then one blank line. */
  ghost predicate EventBlock(b: Bytes, n: nat) {
    exists starts: seq<nat> :: LinesThroughBlank(b, starts, n) && starts[0] == 0
  }

  function NextBreak(b: Bytes, from: nat): (mid: nat)
    requires from <= |b|
    ensures from <= mid <= |b| && NoBreak(b[from..mid]) && (mid < |b| ==> IsBreak(b[mid]))
    decreases |b| - from
  {
    if from == |b| || IsBreak(b[from]) then from else NextBreak(b, from + 1)
  }

  lemma ScanAtBreak(b: Bytes, lineStart: nat, mid: nat)
    requires lineStart <= mid < |b| && IsBreak(b[mid])
    ensures Scan(b, lineStart, mid).Some? ==> exists to :: EndsLine(b, mid, to)
    ensures forall to :: EndsLine(b, mid, to) ==>
              Scan(b, lineStart, mid) == if mid == lineStart then Some(to) else Scan(b, to, to)
  {
    if b[mid] == '\n' {
      assert b[mid..mid + 1] == "\n" && EndsLine(b, mid, mid + 1);
    } else if mid + 1 < |b| {
      assert b[mid..mid + 1] == "\r";
      if b[mid + 1] == '\n' {
        assert b[mid..mid + 2] == "\r\n" && EndsLine(b, mid, mid + 2);
      } else {
        assert EndsLine(b, mid, mid + 1);
      }
    }
  }

  lemma {:induction false} ScanFindsBlock(b: Bytes, from: nat, n: nat) returns (starts: seq<nat>)
    requires from <= |b| && Scan(b, from, from) == Some(n)
    ensures LinesThroughBlank(b, starts, n) && starts[0] == from
    decreases |b| - from
  {
    var mid := NextBreak(b, from);
    ScanSkips(b, from, from, mid);
    ScanAtBreak(b, from, mid);
    var to :| EndsLine(b, mid, to);
    if mid == from {
      starts := [from];
    } else {
      var rest := ScanFindsBlock(b, to, n);
      starts := [from] + rest;
      assert NonBlankLine(b, from, to);
      forall i | 0 <= i < |starts| - 1 ensures NonBlankLine(b, starts[i], starts[i + 1]) {
        assert i > 0 ==> NonBlankLine(b, rest[i - 1], rest[i]);
      }
    }
  }

  lemma {:induction false} BlockIsScanned(b: Bytes, starts: seq<nat>, n: nat)
    requires LinesThroughBlank(b, starts, n)
    ensures starts[0] < |b| && Scan(b, starts[0], starts[0]) == Some(n)
    decreases |starts|
  {
    var from := starts[0];
    if |starts| == 1 {
      ScanAtBreak(b, from, from);
    } else {
      assert NonBlankLine(b, from, starts[1]);
      var mid :| from < mid < |b| && NoBreak(b[from..mid]) && EndsLine(b, mid, starts[1]);
      assert forall i :: from <= i < mid ==> b[i] == b[from..mid][i - from];
      ScanSkips(b, from, from, mid);
      ScanAtBreak(b, from, mid);
      forall i | 0 <= i < |starts[1..]| - 1 ensures NonBlankLine(b, starts[1..][i], starts[1..][i + 1]) {
        assert NonBlankLine(b, starts[i + 1], starts[i + 2]);
      }
      BlockIsScanned(b, starts[1..], n);
    }
  }

  /** The scanner finds exactly the event block a buffer begins with; there is
      at most one, so it is also the shortest. */
  lemma FrameLenIsBlock(b: Bytes, n: nat)
    ensures FrameLen(b) == Some(n) <==> EventBlock(b, n)
  {
    if FrameLen(b) == Some(n) {
      var starts := ScanFindsBlock(b, 0, n);
    }
    if EventBlock(b, n) {
      var starts :| LinesThroughBlank(b, starts, n) && starts[0] == 0;
      BlockIsScanned(b, starts, n);
    }
  }
}
