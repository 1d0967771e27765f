/** Frames out of chunks: the buffering half of the gateway's validator, for
    any way of judging a complete frame. */
module Reassembly {
  import opened Prelude
  import opened Framing
  import opened Inspect

  /** How a body ends once its chunks are used up. */
  datatype End = Eof | Interrupted | IdleTimeout

  /** What the events seen so far have told about the response. */
  datatype Identity = Identity(responseId: Option<string>, model: Option<string>, lastSequence: nat)

  /** A judged frame either lets the stream go on, kept or dropped, or ends it
      with `last` as the final frame. */
  datatype Verdict = GoOn(seen: Identity, keep: bool) | Stop(seen: Identity, last: Bytes)

  /** The frame limit, the judgement of a frame, and the frame that reports a
      failure of the stream itself. */
  datatype Reader = Reader(
    maxEventBytes: nat,
    judge: (Identity, Bytes) -> Verdict,
    failure: (Identity, Reason) -> Bytes)

  datatype State = State(buffer: Bytes, out: seq<Bytes>, finished: bool, seen: Identity)

  const INITIAL := State("", [], false, Identity(None, None, 0))

  function Fail(reader: Reader, st: State, reason: Reason): State {
    if st.finished then st
    else State("", st.out + [reader.failure(st.seen, reason)], true, st.seen)
  }

  /** The effect of one complete frame, `st.buffer` being what follows it. */
  function Accept(reader: Reader, st: State, frame: Bytes): State {
    match reader.judge(st.seen, frame)
    case GoOn(seen, keep) => st.(seen := seen, out := if keep then st.out + [frame] else st.out)
    case Stop(seen, last) => State("", st.out + [last], true, seen)
  }

  function Drain(reader: Reader, st: State): (r: State)
    decreases |st.buffer|
  {
    if st.finished || FrameLen(st.buffer).None? then st
    else
      var n := FrameLen(st.buffer).value;
      if n > reader.maxEventBytes then Fail(reader, st, Oversized)
      else Drain(reader, Accept(reader, st.(buffer := st.buffer[n..]), st.buffer[..n]))
  }

  function Limit(reader: Reader, st: State): State {
    if !st.finished && |st.buffer| > reader.maxEventBytes then Fail(reader, st, Oversized) else st
  }

  function Feed(reader: Reader, st: State, chunk: Bytes): State {
    if st.finished then st else Limit(reader, Drain(reader, st.(buffer := st.buffer + chunk)))
  }

  function FeedAll(reader: Reader, st: State, chunks: seq<Bytes>): State
    decreases |chunks|
  {
    if chunks == [] then st else FeedAll(reader, Feed(reader, st, chunks[0]), chunks[1..])
  }

  predicate AllSpace(t: Bytes) {
    forall i :: 0 <= i < |t| ==> t[i] in {' ', '\t', '\n', 12 as char, '\r'}
  }

  function EndReason(buffer: Bytes, end: End): Reason {
    match end
    case Interrupted => StreamInterrupted
    case IdleTimeout => StreamIdle
    case Eof =>
      if AllSpace(buffer) then EndedEarly
      else EndedInside
  }

  function Finish(reader: Reader, st: State, end: End): State {
    Fail(reader, st, EndReason(st.buffer, end))
  }

  /** The frames a client receives for a body that arrives in `chunks`. */
  function Run(reader: Reader, chunks: seq<Bytes>, end: End): seq<Bytes> {
    Finish(reader, FeedAll(reader, INITIAL, chunks), end).out
  }

  // ----- the same output, described without chunks or buffer -----

  /** How many frames pass before one ends the stream. */
  function Passed(reader: Reader, seen: Identity, frames: seq<Bytes>): (k: nat)
    ensures k <= |frames|
    decreases |frames|
  {
    if frames == [] || |frames[0]| > reader.maxEventBytes then 0
    else
      match reader.judge(seen, frames[0])
      case GoOn(next, _) => 1 + Passed(reader, next, frames[1..])
      case Stop(_, _) => 0
  }

  /** What is known after `frames`, dropped ones included. */
  function Known(reader: Reader, seen: Identity, frames: seq<Bytes>): Identity
    decreases |frames|
  {
    if frames == [] then seen else Known(reader, reader.judge(seen, frames[0]).seen, frames[1..])
  }

  /** The frames of a passing list that are not dropped. */
  function Kept(reader: Reader, seen: Identity, frames: seq<Bytes>): seq<Bytes>
    decreases |frames|
  {
    if frames == [] then []
    else
      match reader.judge(seen, frames[0])
      case GoOn(next, keep) => (if keep then [frames[0]] else []) + Kept(reader, next, frames[1..])
      case Stop(_, _) => []
  }

  /** The frame that ends the stream when `seen` is known and `rest` are the
      complete frames not passed. */
  function Closing(reader: Reader, seen: Identity, rest: seq<Bytes>, tail: Bytes, end: End): Bytes {
    if rest == [] then reader.failure(seen, if |tail| > reader.maxEventBytes then Oversized else EndReason(tail, end))
    else if |rest[0]| > reader.maxEventBytes then reader.failure(seen, Oversized)
    else
      match reader.judge(seen, rest[0])
      case GoOn(_, _) => rest[0]
      case Stop(_, last) => last
  }

  function Declared(reader: Reader, seen: Identity, frames: seq<Bytes>, tail: Bytes, end: End): seq<Bytes> {
    var k := Passed(reader, seen, frames);
    Kept(reader, seen, frames[..k]) + [Closing(reader, Known(reader, seen, frames[..k]), frames[k..], tail, end)]
  }

  lemma {:induction false} FinishedIgnoresInput(reader: Reader, st: State, chunks: seq<Bytes>)
    requires st.finished
    ensures FeedAll(reader, st, chunks) == st
    decreases |chunks|
  {
    if chunks != [] {
      FinishedIgnoresInput(reader, st, chunks[1..]);
    }
  }

  lemma AcceptBuffer(reader: Reader, st: State, frame: Bytes, more: Bytes)
    requires !st.finished
    ensures var a, b := Accept(reader, st, frame), Accept(reader, st.(buffer := st.buffer + more), frame);
            if a.finished then b == a else a.buffer == st.buffer && b == a.(buffer := st.buffer + more)
  {
  }

  lemma {:induction false} DrainSettles(reader: Reader, st: State)
    ensures Drain(reader, st).finished || FrameLen(Drain(reader, st).buffer).None?
    decreases |st.buffer|
  {
    if !st.finished && FrameLen(st.buffer).Some? {
      var n := FrameLen(st.buffer).value;
      if n <= reader.maxEventBytes {
        DrainSettles(reader, Accept(reader, st.(buffer := st.buffer[n..]), st.buffer[..n]));
      }
    }
  }

  /** Draining early changes nothing. */
  lemma {:induction false} DrainAppend(reader: Reader, st: State, more: Bytes)
    requires !st.finished
    ensures var early := Drain(reader, st);
            Drain(reader, st.(buffer := st.buffer + more))
            == if early.finished then early else Drain(reader, early.(buffer := early.buffer + more))
    decreases |st.buffer|
  {
    if FrameLen(st.buffer).Some? {
      var n := FrameLen(st.buffer).value;
      FrameLenStable(st.buffer, more);
      assert (st.buffer + more)[..n] == st.buffer[..n];
      assert (st.buffer + more)[n..] == st.buffer[n..] + more;
      if n <= reader.maxEventBytes {
        var rest := st.(buffer := st.buffer[n..]);
        var next := Accept(reader, rest, st.buffer[..n]);
        AcceptBuffer(reader, rest, st.buffer[..n], more);
        if !next.finished {
          DrainAppend(reader, next, more);
        }
      }
    }
  }

  ghost predicate Settled(reader: Reader, st: State) {
    st.finished || (FrameLen(st.buffer).None? && |st.buffer| <= reader.maxEventBytes)
  }

  lemma FeedTwice(reader: Reader, st: State, a: Bytes, b: Bytes)
    ensures Feed(reader, Feed(reader, st, a), b) == Feed(reader, st, a + b)
    ensures Settled(reader, Feed(reader, st, a))
  {
    if !st.finished {
      var start := st.(buffer := st.buffer + a);
      var early := Drain(reader, start);
      DrainSettles(reader, start);
      DrainAppend(reader, start, b);
      assert st.buffer + (a + b) == start.buffer + b;
      if !early.finished {
        FrameLenLate(early.buffer, b);
      }
    }
  }

  lemma {:induction false} FeedAllAtOnce(reader: Reader, st: State, chunks: seq<Bytes>)
    requires Settled(reader, st)
    ensures FeedAll(reader, st, chunks) == Feed(reader, st, Concat(chunks))
    decreases |chunks|
  {
    if chunks == [] {
      assert st.buffer + "" == st.buffer;
    } else {
      FeedTwice(reader, st, chunks[0], Concat(chunks[1..]));
      FeedAllAtOnce(reader, Feed(reader, st, chunks[0]), chunks[1..]);
    }
  }

  /** The declared output added to `out`, one frame at a time. */
  function Emitted(reader: Reader, out: seq<Bytes>, seen: Identity, frames: seq<Bytes>, tail: Bytes,
                   end: End): seq<Bytes>
    decreases |frames|
  {
    if frames == [] || |frames[0]| > reader.maxEventBytes then out + [Closing(reader, seen, frames, tail, end)]
    else
      match reader.judge(seen, frames[0])
      case Stop(_, last) => out + [last]
      case GoOn(next, keep) => Emitted(reader, if keep then out + [frames[0]] else out, next, frames[1..], tail, end)
  }

  lemma {:induction false} EmittedIsDeclared(reader: Reader, out: seq<Bytes>, seen: Identity, frames: seq<Bytes>,
                                             tail: Bytes, end: End)
    ensures Emitted(reader, out, seen, frames, tail, end) == out + Declared(reader, seen, frames, tail, end)
    decreases |frames|
  {
    var k := Passed(reader, seen, frames);
    var passed := frames[..k];
    if k == 0 {
      assert passed == [] && frames[0..] == frames;
    } else {
      var verdict := reader.judge(seen, frames[0]);
      EmittedIsDeclared(reader, if verdict.keep then out + [frames[0]] else out, verdict.seen, frames[1..], tail, end);
      assert passed[0] == frames[0] && passed[1..] == frames[1..][..k - 1];
      assert frames[k..] == frames[1..][k - 1..];
    }
  }

  lemma {:induction false} DrainEmits(reader: Reader, st: State, end: End)
    requires !st.finished
    ensures Finish(reader, Limit(reader, Drain(reader, st)), end).out
         == Emitted(reader, st.out, st.seen, Frames(st.buffer), Tail(st.buffer), end)
    decreases |st.buffer|
  {
    match FrameLen(st.buffer)
    case None =>
    case Some(n) =>
      var frame := st.buffer[..n];
      var rest := Frames(st.buffer[n..]);
      assert ([frame] + rest)[0] == frame && ([frame] + rest)[1..] == rest;
      if n <= reader.maxEventBytes && reader.judge(st.seen, frame).GoOn? {
        DrainEmits(reader, Accept(reader, st.(buffer := st.buffer[n..]), frame), end);
      }
  }

  /** For every body and every way of cutting it, the client receives the
      complete frames up to the first that ends the stream, without the
      dropped ones, and then one closing frame. */
  lemma RunMatchesDeclaration(reader: Reader, chunks: seq<Bytes>, end: End)
    ensures Run(reader, chunks, end)
         == Declared(reader, INITIAL.seen, Frames(Concat(chunks)), Tail(Concat(chunks)), end)
  {
    var body := Concat(chunks);
    FeedAllAtOnce(reader, INITIAL, chunks);
    assert INITIAL.buffer + body == body;
    DrainEmits(reader, INITIAL.(buffer := body), end);
    EmittedIsDeclared(reader, [], INITIAL.seen, Frames(body), Tail(body), end);
  }

  /** Where the network cut the body never shows, also when the frame limit
      fires. */
  lemma ChunkInvariance(reader: Reader, a: seq<Bytes>, b: seq<Bytes>, end: End)
    requires Concat(a) == Concat(b)
    ensures Run(reader, a, end) == Run(reader, b, end)
  {
    RunMatchesDeclaration(reader, a, end);
    RunMatchesDeclaration(reader, b, end);
  }
}
