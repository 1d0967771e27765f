/** The synthesizer and the way its input is cut. Its scanner ends a line at a
    carriage return without waiting for a line feed, so a cut inside a blank
    CR LF makes an extra, empty frame, and after a bare carriage return leaves
    one more in the frame's data; the events are the same. */
module SynthesizerChunks {
  import opened Prelude
  import opened Json
  import opened Framing
  import opened Synthesizer
  import Conformance

  // ----- the two scanners compared -----

  lemma {:induction false} EagerAgrees(b: Bytes, lineStart: nat, index: nat)
    requires lineStart <= index <= |b|
    ensures Scan(b, lineStart, index).Some? ==> EagerScan(b, lineStart, index) == Scan(b, lineStart, index)
    ensures Scan(b, lineStart, index).None? && EagerScan(b, lineStart, index).Some? ==>
              && EagerScan(b, lineStart, index).value == |b| && b[|b| - 1] == '\r'
              && (|b| - 1 == lineStart || (|b| >= 2 && |b| - 2 >= index && IsBreak(b[|b| - 2])))
    decreases |b| - index
  {
    if index == |b| || (b[index] == '\r' && index + 1 == |b|) {
    } else if !IsBreak(b[index]) {
      EagerAgrees(b, lineStart, index + 1);
    } else {
      var end := if b[index] == '\r' && b[index + 1] == '\n' then index + 2 else index + 1;
      if index != lineStart {
        EagerAgrees(b, end, end);
      }
    }
  }

  /** Unfinished bytes whose last carriage return, if blank, the eager scanner
      already takes for the end of a frame. */
  predicate EndsBlank(tail: Bytes) { FrameLen(tail).None? && EagerFrameLen(tail).Some? }

  function EagerFrames(b: Bytes): seq<Bytes>
    decreases |b|
  {
    match EagerFrameLen(b)
    case None => []
    case Some(n) => [b[..n]] + EagerFrames(b[n..])
  }

  function EagerTail(b: Bytes): Bytes
    decreases |b|
  {
    match EagerFrameLen(b)
    case None => b
    case Some(n) => EagerTail(b[n..])
  }

  /** The eager frames are the gateway's, and at most one more. */
  lemma {:induction false} EagerFramesCompared(b: Bytes)
    ensures if EndsBlank(Tail(b)) then EagerFrames(b) == Frames(b) + [Tail(b)] && EagerTail(b) == ""
            else EagerFrames(b) == Frames(b) && EagerTail(b) == Tail(b)
    decreases |b|
  {
    EagerAgrees(b, 0, 0);
    match FrameLen(b)
    case None =>
      if EagerFrameLen(b).Some? {
        assert b[..|b|] == b && b[|b|..] == "";
        assert EagerFrames("") == [] && EagerTail("") == "";
      }
    case Some(n) => EagerFramesCompared(b[n..]);
  }

  // ----- frames handled one after the other -----

  function Handle(cfg: Config, s: State, frames: seq<Bytes>): State
    decreases |frames|
  {
    if frames == [] || s.terminated then s else Handle(cfg, HandleFrame(cfg, s, frames[0]), frames[1..])
  }

  lemma {:induction false} HandleAppend(cfg: Config, s: State, a: seq<Bytes>, b: seq<Bytes>)
    ensures Handle(cfg, s, a + b) == Handle(cfg, Handle(cfg, s, a), b)
    decreases |a|
  {
    if a == [] {
      assert a + b == b;
    } else if !s.terminated {
      assert (a + b)[0] == a[0] && (a + b)[1..] == a[1..] + b;
      HandleAppend(cfg, HandleFrame(cfg, s, a[0]), a[1..], b);
    }
  }

  lemma {:induction false} DrainHandles(cfg: Config, x: Intake)
    requires !x.state.terminated
    ensures var r := Drain(cfg, x);
            && r.state == Handle(cfg, x.state, EagerFrames(x.buffer))
            && (!r.state.terminated ==> r.buffer == EagerTail(x.buffer))
    decreases |x.buffer|
  {
    match EagerFrameLen(x.buffer)
    case None =>
    case Some(n) =>
      var frame := x.buffer[..n];
      var next := Intake(HandleFrame(cfg, x.state, frame), x.buffer[n..], x.taken + [frame]);
      assert EagerFrames(x.buffer)[1..] == EagerFrames(x.buffer[n..]);
      if !next.state.terminated {
        DrainHandles(cfg, next);
      }
  }

  // ----- the extra frame changes nothing -----

  predicate WholeLines(t: Bytes) { t == "" || t[|t| - 1] == '\n' }

  lemma {:induction false} DataOfSplit(data: Bytes, t: Bytes, more: Bytes)
    requires WholeLines(t)
    ensures DataOf(data, t + more) == DataOf(DataOf(data, t), more)
    decreases |t|
  {
    if t == "" {
      assert t + more == more;
    } else {
      var end := IndexOf(t, '\n');
      assert end < |t| by { assert t[|t| - 1] == '\n'; }
      FirstIndex(t, more);
      assert (t + more)[..end] == t[..end] && (t + more)[end + 1..] == t[end + 1..] + more;
      DataOfSplit(AddLine(data, StripCr(t[..end])), t[end + 1..], more);
    }
  }

  lemma FirstIndex(t: Bytes, more: Bytes)
    requires IndexOf(t, '\n') < |t|
    ensures IndexOf(t + more, '\n') == IndexOf(t, '\n')
  {
    var i, j := IndexOf(t, '\n'), IndexOf(t + more, '\n');
    assert (t + more)[i] == '\n';
  }

  lemma BlankEndsAlike(data: Bytes)
    ensures DataOf(data, "\r") == data && DataOf(data, "\r\n") == data && DataOf(data, "\n") == data
  {
    assert IndexOf("\r", '\n') == 1;
    assert IndexOf("\r\n", '\n') == 1 && "\r\n"[..1] == "\r" && "\r\n"[2..] == "";
    assert IndexOf("\n", '\n') == 0 && "\n"[..0] == "" && "\n"[1..] == "";
    assert StripCr("\r") == "" && StripCr("") == "";
    assert StripPrefix("\r", BOM) == "\r" && IndexOf("\r", ':') == 1;
  }

  lemma NoDataNoChange(cfg: Config, s: State, a: Bytes)
    requires cfg.codec.utf8(a) && DataOf("", a) == ""
    ensures HandleFrame(cfg, s, a) == s
  {
  }

  lemma BreaksKeepUtf8(c: Codec, t: Bytes)
    requires Lawful(c)
    ensures c.utf8(t + "\r") == c.utf8(t + "\r\n") && c.utf8("\n")
  {
    assert t + "\r\n" == (t + "\r") + ['\n'];
    assert "\n" == "" + ['\n'];
  }

  /** Up to the last line feed, and the rest. */
  lemma {:induction false} LastLine(t: Bytes) returns (whole: Bytes, last: Bytes)
    ensures t == whole + last && WholeLines(whole) && '\n' !in last
    decreases |t|
  {
    if WholeLines(t) {
      whole, last := t, "";
    } else {
      whole, last := LastLine(t[..|t| - 1]);
      last := last + [t[|t| - 1]];
    }
  }

  /** A bare carriage return already at the end of a line is part of its value,
      which one more only makes longer. */
  lemma ReturnLengthens(data: Bytes, line: Bytes)
    requires line != "" && line[|line| - 1] == '\r'
    ensures var a, b := AddLine(data, line), AddLine(data, line + "\r"); a == b || (a != "" && b == a + "\r")
  {
    var rest := StripPrefix(line, BOM);
    PrefixKept(line);
    assert rest != "" && rest[|rest| - 1] == '\r';
    var colon := IndexOf(rest, ':');
    ColonKept(rest);
    if colon < |rest| {
      assert (rest + "\r")[..colon] == rest[..colon];
      var value := rest[colon + 1..];
      assert (rest + "\r")[colon + 1..] == value + "\r";
      assert value != "" && value[|value| - 1] == '\r';
      ValueLengthens(value);
      Regrouped(if data == "" then "" else data + "\n", StripPrefix(value, " "), "\r");
    }
  }

  lemma PrefixKept(line: Bytes)
    requires line != "" && line[|line| - 1] == '\r'
    ensures StripPrefix(line + "\r", BOM) == StripPrefix(line, BOM) + "\r"
    ensures var rest := StripPrefix(line, BOM); rest != "" && rest[|rest| - 1] == '\r'
  {
    if BOM <= line + "\r" {
      assert (line + "\r")[2] == BOM[2] && (line + "\r")[|line| - 1] == '\r';
      assert |line| > 3;
      assert BOM == line[..3];
      assert (line + "\r")[3..] == line[3..] + "\r";
    }
  }

  lemma ColonKept(rest: Bytes)
    ensures var colon := IndexOf(rest, ':');
            IndexOf(rest + "\r", ':') == if colon < |rest| then colon else |rest| + 1
  {
    var colon := IndexOf(rest, ':');
    assert forall k :: 0 <= k < |rest| ==> (rest + "\r")[k] == rest[k];
    assert (rest + "\r")[|rest|] == '\r';
    if colon < |rest| {
      assert (rest + "\r")[colon] == ':';
    }
  }

  lemma ValueLengthens(value: Bytes)
    requires value != "" && value[|value| - 1] == '\r'
    ensures StripPrefix(value + "\r", " ") == StripPrefix(value, " ") + "\r" && StripPrefix(value, " ") != ""
  {
    assert (value + "\r")[0] == value[0];
    if value[0] == ' ' {
      assert (value + "\r")[1..] == value[1..] + "\r";
    }
  }

  lemma Regrouped(a: Bytes, b: Bytes, c: Bytes)
    ensures a + (b + c) == (a + b) + c
  {
  }

  lemma OneLine(data: Bytes, line: Bytes)
    requires '\n' !in line
    ensures DataOf(data, line + "\n") == AddLine(data, StripCr(line))
    ensures line != "" ==> DataOf(data, line) == AddLine(data, line)
  {
    assert (line + "\n")[|line|] == '\n';
    assert IndexOf(line + "\n", '\n') == |line|;
    assert (line + "\n")[..|line|] == line && (line + "\n")[|line| + 1..] == "";
  }

  /** One line more, with and without its line feed. */
  lemma LineMore(before: Bytes, last: Bytes)
    requires WholeLines(before) && '\n' !in last && last != ""
    ensures DataOf("", before + (last + "\r")) == AddLine(DataOf("", before), last + "\r")
    ensures DataOf("", before + (last + "\r" + "\n")) == AddLine(DataOf("", before), last)
  {
    DataOfSplit("", before, last + "\r");
    DataOfSplit("", before, last + "\r" + "\n");
    OneLine(DataOf("", before), last + "\r");
    assert StripCr(last + "\r") == last;
  }

  lemma ReturnAndFeed(t: Bytes)
    ensures t + "\r" + "\n" == t + "\r\n"
  {
  }

  lemma EndsInReturn(before: Bytes, last: Bytes)
    requires last != "" && '\n' !in last && IsBreak((before + last)[|before + last| - 1])
    ensures last[|last| - 1] == '\r'
  {
  }

  lemma BlankMore(before: Bytes)
    requires WholeLines(before)
    ensures DataOf("", before + "\r") == DataOf("", before + "\r\n")
  {
    DataOfSplit("", before, "\r");
    DataOfSplit("", before, "\r\n");
    BlankEndsAlike(DataOf("", before));
  }

  /** The data of a frame cut inside its blank CR LF, and of the whole frame. */
  lemma EarlyBlankData(lines: Bytes)
    requires lines == "" || IsBreak(lines[|lines| - 1])
    ensures var whole, early := DataOf("", lines + "\r\n"), DataOf("", lines + "\r");
            early == whole || (whole != "" && early == whole + "\r")
  {
    var before, last := LastLine(lines);
    if last == "" {
      assert before + last == before;
      BlankMore(lines);
    } else {
      EndsInReturn(before, last);
      Regrouped(before, last, "\r");
      Regrouped(before, last, "\r\n");
      ReturnAndFeed(last);
      LineMore(before, last);
      ReturnLengthens(DataOf("", before), last);
    }
  }

  lemma ReturnIgnored(cfg: Config, s: State, data: Bytes)
    requires SkipsReturns(cfg.codec) && data != ""
    ensures HandleData(cfg, s, data + "\r") == HandleData(cfg, s, data)
  {
  }

  /** Handling a frame cut inside its blank CR LF is handling it whole. */
  lemma EarlyBlankHandledAlike(cfg: Config, s: State, lines: Bytes)
    requires Lawful(cfg.codec) && SkipsReturns(cfg.codec) && (lines == "" || IsBreak(lines[|lines| - 1]))
    ensures HandleFrame(cfg, s, lines + "\r") == HandleFrame(cfg, s, lines + "\r\n")
    ensures HandleFrame(cfg, s, "\n") == s
  {
    BreaksKeepUtf8(cfg.codec, lines);
    EarlyBlankData(lines);
    var whole, early := DataOf("", lines + "\r\n"), DataOf("", lines + "\r");
    if early != whole {
      ReturnIgnored(cfg, s, whole);
    }
    BlankEndsAlike("");
    NoDataNoChange(cfg, s, "\n");
  }

  // ----- any cutting comes to the same -----

  lemma BlankTail(t: Bytes) returns (lines: Bytes)
    requires EndsBlank(t)
    ensures t == lines + "\r" && (lines == "" || IsBreak(lines[|lines| - 1]))
  {
    EagerAgrees(t, 0, 0);
    lines := t[..|t| - 1];
  }

  /** A blank carriage return is a line end of its own unless a line feed comes
      next. */
  lemma {:induction false} BlankCompletes(b: Bytes, c: Bytes, lineStart: nat, index: nat)
    requires lineStart <= index <= |b| && c != ""
    requires Scan(b, lineStart, index).None? && EagerScan(b, lineStart, index).Some?
    ensures Scan(b + c, lineStart, index) == Some(if c[0] == '\n' then |b| + 1 else |b|)
    decreases |b| - index
  {
    EagerAgrees(b, lineStart, index);
    assert forall i :: 0 <= i < |b| ==> (b + c)[i] == b[i];
    assert (b + c)[|b|] == c[0];
    if b[index] == '\r' && index + 1 == |b| {
      EagerLastBlank(b, lineStart, index);
    } else if !IsBreak(b[index]) {
      BlankCompletes(b, c, lineStart, index + 1);
    } else {
      var end := if b[index] == '\r' && b[index + 1] == '\n' then index + 2 else index + 1;
      BlankCompletes(b, c, end, end);
    }
  }

  lemma EagerLastBlank(b: Bytes, lineStart: nat, index: nat)
    requires lineStart <= index && index + 1 == |b| && b[index] == '\r' && EagerScan(b, lineStart, index).Some?
    ensures index == lineStart
  {
    assert EagerScan(b, index + 1, index + 1).None?;
  }

  /** The state after prefix `p`: the frames of `p` are handled, and if `p`
      ends in a blank carriage return, its tail is as well. */
  ghost predicate Synced(cfg: Config, x: Intake, p: Bytes) {
    if EndsBlank(Tail(p)) then
      x.state == Handle(cfg, Initial(cfg), Frames(p) + [Tail(p)]) && (x.state.terminated || x.buffer == "")
    else
      x.state == Handle(cfg, Initial(cfg), Frames(p)) && (x.state.terminated || x.buffer == Tail(p))
  }

  /** Handling what follows from the state after `p`. */
  lemma SyncedOn(cfg: Config, s: State, p: Bytes, c: Bytes, handled: seq<Bytes>, rest: Bytes, x: Intake)
    requires s == Handle(cfg, Initial(cfg), handled)
    requires Frames(p + c) == handled + Frames(rest) && Tail(p + c) == Tail(rest)
    requires x.state == Handle(cfg, s, EagerFrames(rest)) && (x.state.terminated || x.buffer == EagerTail(rest))
    ensures Synced(cfg, x, p + c)
  {
    EagerFramesCompared(rest);
    HandleAppend(cfg, Initial(cfg), handled, EagerFrames(rest));
    assert handled + (Frames(rest) + [Tail(rest)]) == (handled + Frames(rest)) + [Tail(rest)];
  }

  lemma PushAligned(cfg: Config, x: Intake, p: Bytes, c: Bytes)
    requires Synced(cfg, x, p) && !EndsBlank(Tail(p))
    requires x.state.terminated || |x.buffer| + |c| <= cfg.maxBuffered
    ensures Synced(cfg, Push(cfg, x, c), p + c)
  {
    FramesAppend(p, c);
    if !x.state.terminated {
      DrainHandles(cfg, x.(buffer := x.buffer + c));
    }
    SyncedOn(cfg, x.state, p, c, Frames(p), Tail(p) + c, Push(cfg, x, c));
  }

  lemma FramesAfterBlank(p: Bytes, c: Bytes)
    requires EndsBlank(Tail(p)) && c != "" && c[0] == '\n'
    ensures Frames(p + c) == (Frames(p) + [Tail(p) + "\n"]) + Frames(c[1..]) && Tail(p + c) == Tail(c[1..])
    ensures EagerFrames(c) == ["\n"] + EagerFrames(c[1..]) && EagerTail(c) == EagerTail(c[1..])
  {
    var t := Tail(p);
    FramesAppend(p, c);
    BlankCompletes(t, c, 0, 0);
    assert (t + c)[..|t| + 1] == t + "\n" && (t + c)[|t| + 1..] == c[1..];
    assert Frames(t + c) == [t + "\n"] + Frames(c[1..]);
    assert c[..1] == "\n";
  }

  /** The rest of a blank CR LF arrives. */
  lemma PushLineFeed(cfg: Config, x: Intake, p: Bytes, c: Bytes)
    requires Lawful(cfg.codec) && SkipsReturns(cfg.codec) && c != "" && c[0] == '\n'
    requires Synced(cfg, x, p) && EndsBlank(Tail(p))
    requires x.state.terminated || |x.buffer| + |c| <= cfg.maxBuffered
    ensures Synced(cfg, Push(cfg, x, c), p + c)
  {
    var t := Tail(p);
    var lines := BlankTail(t);
    FramesAfterBlank(p, c);
    var before := Handle(cfg, Initial(cfg), Frames(p));
    EarlyBlankHandledAlike(cfg, before, lines);
    assert t + "\n" == lines + "\r\n";
    HandleAppend(cfg, Initial(cfg), Frames(p), [t]);
    HandleAppend(cfg, Initial(cfg), Frames(p), [t + "\n"]);
    OneFrame(cfg, before, t, t + "\n");
    if !x.state.terminated {
      EarlyBlankHandledAlike(cfg, x.state, lines);
      DrainHandles(cfg, x.(buffer := c));
      assert x.buffer + c == c;
      assert (["\n"] + EagerFrames(c[1..]))[1..] == EagerFrames(c[1..]);
    }
    SyncedOn(cfg, x.state, p, c, Frames(p) + [t + "\n"], c[1..], Push(cfg, x, c));
  }

  lemma FramesAfterReturn(p: Bytes, c: Bytes)
    requires EndsBlank(Tail(p)) && c != "" && c[0] != '\n'
    ensures Frames(p + c) == (Frames(p) + [Tail(p)]) + Frames(c) && Tail(p + c) == Tail(c)
  {
    var t := Tail(p);
    FramesAppend(p, c);
    BlankCompletes(t, c, 0, 0);
    assert (t + c)[..|t|] == t && (t + c)[|t|..] == c;
    assert Frames(t + c) == [t] + Frames(c);
    assert Frames(p) + ([t] + Frames(c)) == (Frames(p) + [t]) + Frames(c);
  }

  /** The carriage return was a blank line of its own. */
  lemma PushAfterBlank(cfg: Config, x: Intake, p: Bytes, c: Bytes)
    requires Synced(cfg, x, p) && EndsBlank(Tail(p)) && c != "" && c[0] != '\n'
    requires x.state.terminated || |x.buffer| + |c| <= cfg.maxBuffered
    ensures Synced(cfg, Push(cfg, x, c), p + c)
  {
    FramesAfterReturn(p, c);
    if !x.state.terminated {
      assert x.buffer + c == c;
      DrainHandles(cfg, x.(buffer := c));
    }
    SyncedOn(cfg, x.state, p, c, Frames(p) + [Tail(p)], c, Push(cfg, x, c));
  }

  lemma OneFrame(cfg: Config, s: State, a: Bytes, b: Bytes)
    requires HandleFrame(cfg, s, a) == HandleFrame(cfg, s, b)
    ensures Handle(cfg, s, [a]) == Handle(cfg, s, [b])
  {
    assert [a][1..] == [] && [b][1..] == [];
  }

  lemma PushSynced(cfg: Config, x: Intake, p: Bytes, c: Bytes)
    requires Lawful(cfg.codec) && SkipsReturns(cfg.codec) && Synced(cfg, x, p)
    requires x.state.terminated || |x.buffer| + |c| <= cfg.maxBuffered
    ensures Synced(cfg, Push(cfg, x, c), p + c)
  {
    if !EndsBlank(Tail(p)) {
      PushAligned(cfg, x, p, c);
    } else if c != "" && c[0] == '\n' {
      PushLineFeed(cfg, x, p, c);
    } else if c != "" {
      PushAfterBlank(cfg, x, p, c);
    } else {
      assert p + c == p && x.buffer + c == x.buffer;
      assert EagerFrameLen("").None?;
    }
  }

  /** No push of this cutting trips the buffer bound. */
  predicate Fits(cfg: Config, x: Intake, chunks: seq<Bytes>)
    decreases |chunks|
  {
    chunks == [] || x.state.finished
    || (|x.buffer| + |chunks[0]| <= cfg.maxBuffered && Fits(cfg, Push(cfg, x, chunks[0]), chunks[1..]))
  }

  lemma SyncedIsHandled(cfg: Config, x: Intake, p: Bytes)
    requires Synced(cfg, x, p)
    ensures Reaches(cfg, x.state, p)
  {
    EagerFramesCompared(p);
  }

  /** The state is what the eager frames of `b` lead to. */
  ghost predicate Reaches(cfg: Config, s: State, b: Bytes) { s == Handle(cfg, Initial(cfg), EagerFrames(b)) }

  lemma FinishedReaches(cfg: Config, x: Intake, p: Bytes, rest: Bytes)
    requires Lawful(cfg.codec) && SkipsReturns(cfg.codec) && Synced(cfg, x, p) && x.state.terminated
    ensures Reaches(cfg, x.state, p + rest)
  {
    PushSynced(cfg, x, p, rest);
    SyncedIsHandled(cfg, x, p + rest);
  }

  lemma {:induction false} PushAllSynced(cfg: Config, x: Intake, p: Bytes, chunks: seq<Bytes>)
    requires Lawful(cfg.codec) && SkipsReturns(cfg.codec) && Synced(cfg, x, p) && Fits(cfg, x, chunks)
    requires Conformance.Conforms(x.state)
    ensures Reaches(cfg, PushAll(cfg, x, chunks).state, p + Concat(chunks))
    decreases |chunks|
  {
    if chunks == [] {
      assert p + "" == p;
      SyncedIsHandled(cfg, x, p);
    } else if x.state.finished {
      FinishedReaches(cfg, x, p, Concat(chunks));
    } else {
      var c := chunks[0];
      Regrouped(p, c, Concat(chunks[1..]));
      PushSynced(cfg, x, p, c);
      PushConforms(cfg, x, c);
      PushAllSynced(cfg, Push(cfg, x, c), p + c, chunks[1..]);
    }
  }

  lemma PushConforms(cfg: Config, x: Intake, c: Bytes)
    requires Conformance.Conforms(x.state)
    ensures Conformance.Conforms(Push(cfg, x, c).state)
  {
    Conformance.PushAllConforms(cfg, x, [c]);
    if !x.state.finished {
      assert [c][1..] == [];
      assert PushAll(cfg, x, [c]) == PushAll(cfg, Push(cfg, x, c), []);
    }
  }

  /** Every cutting of a body that stays within the buffer bound leads to the
      same events. */
  lemma ChunkInvariance(cfg: Config, a: seq<Bytes>, b: seq<Bytes>, end: End)
    requires Lawful(cfg.codec) && SkipsReturns(cfg.codec) && Concat(a) == Concat(b)
    requires Fits(cfg, Begin(cfg), a) && Fits(cfg, Begin(cfg), b)
    ensures Run(cfg, a, end).state.events == Run(cfg, b, end).state.events
  {
    assert Frames("") == [] && Tail("") == "" && !EndsBlank("");
    assert "" + Concat(a) == Concat(a) && "" + Concat(b) == Concat(b);
    PushAllSynced(cfg, Begin(cfg), "", a);
    PushAllSynced(cfg, Begin(cfg), "", b);
  }
}
