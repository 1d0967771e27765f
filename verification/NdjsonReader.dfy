/** The relay's bounded line reader, over input that arrives in slices. */
module NdjsonReader {
  import opened Prelude

  /** The first line of `rest` with its line feed, if it has one. */
  function LineOf(rest: Bytes): (line: Bytes)
    ensures line <= rest && (rest != "" ==> line != "")
  {
    var end := IndexOf(rest, '\n');
    if end == |rest| then rest else rest[..end + 1]
  }

  predicate Terminated(line: Bytes) { line != "" && line[|line| - 1] == '\n' }

  function PayloadLen(line: Bytes): nat { if Terminated(line) then |line| - 1 else |line| }

  datatype Read = End | Frame(bytes: Bytes) | TooLong

  /** What reading one frame gives, however the input is sliced. */
  function NextFrame(max: nat, rest: Bytes): Read {
    if rest == "" then End
    else if PayloadLen(LineOf(rest)) > max then TooLong
    else Frame(LineOf(rest))
  }

  /** `slices` is what the buffered reader will hand out, front first. */
  class Reader {
    var slices: seq<Bytes>

    predicate Valid()
      reads this
    {
      forall i :: 0 <= i < |slices| ==> slices[i] != ""
    }

    ghost function Rest(): Bytes
      reads this
    {
      Concat(slices)
    }

    constructor (slices: seq<Bytes>)
      requires forall i :: 0 <= i < |slices| ==> slices[i] != ""
      ensures Valid() && Rest() == Concat(slices)
    {
      this.slices := slices;
    }

    method Consume(length: nat)
      requires Valid() && slices != [] && length <= |slices[0]|
      modifies this
      ensures Valid() && Rest() == old(Rest())[length..] && (length < |old(slices[0])| || |slices| < |old(slices)|)
      ensures old(Rest())[..length] == old(slices[0])[..length] && |Rest()| == |old(Rest())| - length
    {
      ghost var rest := Rest();
      if length == |slices[0]| {
        slices := slices[1..];
      } else {
        slices := [slices[0][length..]] + slices[1..];
      }
      assert Rest() == rest[length..];
    }

    method ReadFrame(max: nat) returns (r: Read)
      requires Valid()
      modifies this
      ensures Valid() && r == NextFrame(max, old(Rest()))
      ensures r.Frame? ==> old(Rest()) == r.bytes + Rest()
      ensures r.End? ==> Rest() == ""
    {
      var output: Bytes := "";
      ghost var rest := Rest();
      while true
        invariant Valid() && output + Rest() == rest && '\n' !in output && |output| <= max
        decreases |Rest()|
      {
        if slices == [] {
          LineWithin(output, "");
          return if output == "" then End else Frame(output);
        }
        var available := slices[0];
        var newline := IndexOf(available, '\n');
        var length := if newline < |available| then newline + 1 else |available|;
        var terminated := available[length - 1] == '\n';
        SliceStep(output, available, Rest(), length);
        if |output| + length > (if terminated then max + 1 else max) {
          return TooLong;
        }
        Consume(length);
        output := output + available[..length];
        if terminated {
          return Frame(output);
        }
      }
    }
  }

  /** A text whose only line feed, if any, is its last byte is the line that
      begins any text it begins. */
  lemma LineWithin(line: Bytes, more: Bytes)
    requires forall i :: 0 <= i < |line| - 1 ==> line[i] != '\n'
    requires Terminated(line) || more == ""
    ensures LineOf(line + more) == line
  {
    var all := line + more;
    if Terminated(line) {
      assert all[|line| - 1] == '\n' && forall i :: 0 <= i < |line| - 1 ==> all[i] == line[i];
      assert IndexOf(all, '\n') == |line| - 1;
    } else {
      assert all == line;
    }
  }

  lemma LineAtLeast(start: Bytes, more: Bytes)
    requires '\n' !in start
    ensures start <= LineOf(start + more)
    ensures PayloadLen(LineOf(start + more)) >= |start|
  {
    var all := start + more;
    assert forall i :: 0 <= i < |start| ==> all[i] == start[i];
    assert IndexOf(all, '\n') >= |start|;
  }

  /** Taking one more slice, up to its line feed, towards the current line. */
  lemma SliceStep(output: Bytes, available: Bytes, rest: Bytes, length: nat)
    requires '\n' !in output && available <= rest && 0 < length <= |available|
    requires length == if IndexOf(available, '\n') < |available| then IndexOf(available, '\n') + 1 else |available|
    ensures var taken := output + available[..length];
            if available[length - 1] == '\n' then LineOf(output + rest) == taken && PayloadLen(taken) == |taken| - 1
            else '\n' !in taken && PayloadLen(LineOf(output + rest)) >= |taken|
    ensures output + rest == (output + available[..length]) + rest[length..]
  {
    var taken := output + available[..length];
    assert output + rest == taken + rest[length..];
    if available[length - 1] == '\n' {
      LineWithin(taken, rest[length..]);
    } else {
      LineAtLeast(taken, rest[length..]);
    }
  }

  // ----- the whole input -----

  /** The frames read until the end, or until one is too long. */
  function AllFrames(max: nat, rest: Bytes): (frames: seq<Bytes>)
    decreases |rest|
  {
    var next := NextFrame(max, rest);
    if next.Frame? then [next.bytes] + AllFrames(max, rest[|next.bytes|..]) else []
  }

  /** No line of `rest` has a payload beyond `max`. */
  predicate LinesFit(max: nat, rest: Bytes)
    decreases |rest|
  {
    rest == "" || (PayloadLen(LineOf(rest)) <= max && LinesFit(max, rest[|LineOf(rest)|..]))
  }

  method ReadAll(max: nat, slices: seq<Bytes>) returns (frames: seq<Bytes>, ended: bool)
    requires forall i :: 0 <= i < |slices| ==> slices[i] != ""
    ensures frames == AllFrames(max, Concat(slices)) && (ended <==> LinesFit(max, Concat(slices)))
  {
    var reader := new Reader(slices);
    frames := [];
    ghost var all := Concat(slices);
    while true
      invariant fresh(reader) && reader.Valid()
      invariant frames + AllFrames(max, reader.Rest()) == AllFrames(max, all)
      invariant LinesFit(max, reader.Rest()) <==> LinesFit(max, all)
      decreases |reader.Rest()|
    {
      ghost var rest := reader.Rest();
      var r := reader.ReadFrame(max);
      match r {
        case End => return frames, true;
        case TooLong => return frames, false;
        case Frame(bytes) =>
          assert reader.Rest() == rest[|bytes|..];
          assert frames + ([bytes] + AllFrames(max, reader.Rest()))
                 == (frames + [bytes]) + AllFrames(max, reader.Rest());
          frames := frames + [bytes];
      }
    }
  }

  /** A frame holds a line feed as its last byte or not at all. */
  predicate OneLine(frame: Bytes) { frame != "" && forall i :: 0 <= i < |frame| - 1 ==> frame[i] != '\n' }

  lemma LineIsOneLine(rest: Bytes)
    requires rest != ""
    ensures OneLine(LineOf(rest)) && (|LineOf(rest)| < |rest| ==> Terminated(LineOf(rest)))
  {
  }

  /** Frames concatenate back to the input when no line is too long; each is one
      line of at most `max` payload bytes, and only the last may lack its line
      feed. */
  lemma {:induction false} FramesAreLines(max: nat, rest: Bytes)
    ensures var frames := AllFrames(max, rest);
            && (LinesFit(max, rest) ==> Concat(frames) == rest)
            && (LinesFit(max, rest) ==> forall i :: 0 <= i < |frames| - 1 ==> Terminated(frames[i]))
            && forall i :: 0 <= i < |frames| ==> OneLine(frames[i]) && PayloadLen(frames[i]) <= max
    decreases |rest|
  {
    var next := NextFrame(max, rest);
    if next.Frame? {
      var line, later := next.bytes, rest[|next.bytes|..];
      FramesAreLines(max, later);
      LineIsOneLine(rest);
      assert line + later == rest;
      var frames := AllFrames(max, rest);
      assert frames[0] == line && frames[1..] == AllFrames(max, later);
      forall i | 0 <= i < |frames|
        ensures OneLine(frames[i]) && PayloadLen(frames[i]) <= max
        ensures LinesFit(max, rest) && i < |frames| - 1 ==> Terminated(frames[i])
      {
        if i > 0 {
          assert frames[i] == AllFrames(max, later)[i - 1];
        }
      }
    }
  }
}
