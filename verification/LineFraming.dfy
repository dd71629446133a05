/**
 The agent harness's output reader (plugins/agent-harness/real_provider.go:140-198): it turns a provider's byte
 stream, delivered in fragments of any size, into one frame per line, with lines above one MiB cut and marked.
 */
module LineFraming {
  import opened Bytes

  type Text = seq<byte>

  const RETURN: byte := 13

  /** The most bytes a frame carries. */
  const CAP: nat := 1048576

  /** The UTF-8 bytes of an ellipsis and "[truncated]". */
  const MARK: Text := [0xE2, 0x80, 0xA6, 91, 116, 114, 117, 110, 99, 97, 116, 101, 100, 93]

  // ----- What a stream's frames are -----

  /** The position of the first newline, or the length. */
  function LineEnd(s: Text): (n: nat)
    ensures n <= |s|
  {
    if s == [] || s[0] == NEWLINE then 0 else 1 + LineEnd(s[1..])
  }

  lemma {:induction false} LineEndMeans(s: Text)
    ensures NEWLINE !in s[..LineEnd(s)] && (LineEnd(s) < |s| ==> s[LineEnd(s)] == NEWLINE)
  {
    if s == [] || s[0] == NEWLINE {
    } else {
      LineEndMeans(s[1..]);
      assert s[..LineEnd(s)] == [s[0]] + s[1..][..LineEnd(s[1..])];
    }
  }

  predicate EndsInReturn(s: Text) {
    s != [] && s[|s| - 1] == RETURN
  }

  /** Without one carriage return at the end, if there is one. */
  function Chomped(s: Text): Text {
    if EndsInReturn(s) then s[..|s| - 1] else s
  }

  function Cut(content: Text): Text
    requires |content| > CAP
  {
    content[..CAP - |MARK|] + MARK
  }

  /** The frame of one line, if any: empty lines have none and long ones are cut. */
  function FrameOf(content: Text): seq<Text> {
    if content == [] then [] else if |content| > CAP then [Cut(content)] else [Chomped(content)]
  }

  function Framed(s: Text): seq<Text> {
    var n := LineEnd(s);
    FrameOf(LineContent(s)) + if n == |s| then [] else Framed(s[n + 1..])
  }

  /** The first line's bytes without its terminator, which is a newline or a carriage return and a newline. */
  function LineContent(s: Text): Text {
    var n := LineEnd(s);
    if n == |s| then s else Chomped(s[..n])
  }

  function AfterLine(s: Text): Text {
    var n := LineEnd(s);
    if n == |s| then [] else s[n + 1..]
  }

  /** What follows the last newline: the line that none ends. */
  function Unended(s: Text): Text {
    var n := LineEnd(s);
    if n == |s| then s else Unended(s[n + 1..])
  }

  // ----- The reader -----

  /** What may stand before `rest` as the part of a line read so far. */
  predicate Open(acc: Text, rest: Text) {
    NEWLINE !in acc && (EndsInReturn(acc) ==> rest != [] && rest[0] == RETURN)
  }

  datatype Ending = Eof | Failure(message: Text)

  /** A pipe behind a buffered reader: the bytes still to come and what ends them. */
  class LineReader {
    var rest: Text
    const ending: Ending
    /** Whether the buffer was full before the end of the line when bytes were last returned. */
    ghost var full: bool

    constructor (rest: Text, ending: Ending)
      ensures this.rest == rest && this.ending == ending
    {
      this.rest, this.ending := rest, ending;
    }

    /**
     * ReadLine of a buffered reader: a line without its terminator, or, when the buffer fills up first, some first
     * part of it. A carriage return at the very end of a full buffer is left for the next call, and only that one: a
     * fragment that still ends in a carriage return is followed by another.
     */
    method ReadLine() returns (chunk: Text, isPrefix: bool, err: bool)
      modifies this
      ensures full == if err then old(full) else isPrefix
      ensures err <==> old(rest) == []
      ensures err ==> chunk == [] && !isPrefix && rest == []
      ensures isPrefix ==> chunk != [] && Open(chunk, rest) && old(rest) == chunk + rest
      ensures !err && !isPrefix ==> chunk == LineContent(old(rest)) && rest == AfterLine(old(rest))
    {
      if rest == [] {
        return [], false, true;
      }
      var n := LineEnd(rest);
      var size: nat := *;
      if 1 <= size <= n && (rest[size - 1] == RETURN ==> size < |rest| && rest[size] == RETURN) {
        FirstPartIsOpen(rest, size);
        chunk, isPrefix, err := rest[..size], true, false;
        rest := rest[size..];
      } else {
        chunk, isPrefix, err := LineContent(rest), false, false;
        rest := AfterLine(rest);
      }
      full := isPrefix;
    }
  }

  lemma FirstPartIsOpen(s: Text, size: nat)
    requires 1 <= size <= LineEnd(s) && (s[size - 1] == RETURN ==> size < |s| && s[size] == RETURN)
    ensures s[..size] != [] && Open(s[..size], s[size..]) && s == s[..size] + s[size..]
  {
    LineEndMeans(s);
    forall i | 0 <= i < size ensures s[..size][i] != NEWLINE {
      assert s[..size][i] == s[..LineEnd(s)][i];
    }
  }

  /** The frames handed on so far; the consumer may refuse one once the run is over or the readers are stopped. */
  class Sink {
    var out: seq<Text>
    ghost var refused: bool

    constructor ()
      ensures out == [] && !refused
    {
      out, refused := [], false;
    }

    method Emit(text: Text) returns (ok: bool)
      modifies this
      ensures out == if ok then old(out) + [text] else old(out)
      ensures refused == (old(refused) || !ok)
    {
      ok := *;
      if ok {
        out := out + [text];
      } else {
        refused := true;
      }
    }

    method Flush(acc: Text) returns (ok: bool)
      requires |acc| <= CAP
      modifies this
      ensures out == if ok then old(out) + FrameOf(acc) else old(out)
      ensures refused == (old(refused) || !ok)
      ensures !ok ==> acc != []
    {
      if acc == [] {
        return true;
      }
      ok := Emit(Chomped(acc));
    }
  }

  const READ_ERROR: Text := [91, 114, 101, 97, 100, 32, 101, 114, 114, 111, 114, 58, 32]

  /** The frame that reports a read error; none at the end of the stream or when the readers were stopped on purpose. */
  function Report(ending: Ending, forced: bool): seq<Text> {
    if ending.Eof? || forced then [] else [READ_ERROR + ending.message + [93]]
  }

  /**
   Whether the report overtakes the last frame: the stream ends in a line that no newline ends and that is not too
   long, and its last bytes filled the buffer, so that the reader could not yet tell that the line was over.
   */
  ghost predicate Overtaken(s: Text, full: bool) {
    full && 0 < |Unended(s)| <= CAP
  }

  /** The report stands after all frames, or before the last one. */
  ghost predicate Complete(got: seq<Text>, frames: seq<Text>, report: seq<Text>, overtaken: bool) {
    if overtaken then frames != [] && got == frames[..|frames| - 1] + report + frames[|frames| - 1..]
    else got == frames + report
  }

  /** What a consumer that refuses may have got: a first part, and the report instead of the last frame at most. */
  ghost predicate Partial(got: seq<Text>, frames: seq<Text>, report: seq<Text>, overtaken: bool) {
    got <= frames || (overtaken && frames != [] && got == frames[..|frames| - 1] + report)
  }

  method Discard(r: LineReader, isPrefix: bool, ghost s: Text) returns (err: bool)
    requires if isPrefix then Skipping(s, r.rest) else Tracked(s, [], r.rest, r.full)
    modifies r
    ensures Tracked(s, [], r.rest, r.full)
    ensures r.rest == if isPrefix then AfterLine(old(r.rest)) else old(r.rest)
    ensures err ==> r.rest == []
    ensures |r.rest| <= |old(r.rest)|
  {
    hide LineEnd, Skipping, Tracked;
    err := false;
    ghost var start := r.rest;
    var more := isPrefix;
    while more
      invariant more ==> isPrefix && AfterLine(r.rest) == AfterLine(start) && Skipping(s, r.rest)
      invariant !more ==> r.rest == (if isPrefix then AfterLine(start) else start) && Tracked(s, [], r.rest, r.full)
      invariant !err && |r.rest| <= |start|
      decreases more, |r.rest|
    {
      ghost var before := r.rest;
      var chunk;
      chunk, more, err := r.ReadLine();
      if err {
        NothingLeft(s, r.full);
        break;
      }
      if more {
        FragmentKeepsLine(chunk, r.rest);
        SkipOn(s, chunk, r.rest);
      } else {
        SkipEnds(s, before);
      }
    }
  }

  /** Takes what still fits of a fragment; a line that does not fit is cut and marked. */
  method Gather(acc: Text, chunk: Text) returns (line: Text, long: bool)
    requires |acc| <= CAP
    ensures long == (|acc + chunk| > CAP)
    ensures line == if long then Cut(acc + chunk) else acc + chunk
  {
    line := acc;
    var room := if CAP - |acc| > |chunk| then |chunk| else CAP - |acc|;
    if room > 0 {
      line := line + chunk[..room];
    }
    assert line == acc + chunk[..room];
    long := |chunk| > room;
    if long {
      line := line[..CAP - |MARK|] + MARK;
    }
  }

  /** The end of the stream: the report, if there is one to make, and then what is left of the last line. */
  method Finish(sink: Sink, acc: Text, ending: Ending, forced: bool)
    requires |acc| <= CAP && !sink.refused
    modifies sink
    ensures var out, report := old(sink.out), Report(ending, forced);
            if sink.refused then
              sink.out == out || sink.out == out + FrameOf(acc) || (acc != [] && sink.out == out + report)
            else sink.out == out + report + FrameOf(acc)
  {
    if !ending.Eof? && !forced {
      var _ := sink.Emit(READ_ERROR + ending.message + [93]);
    }
    var _ := sink.Flush(acc);
  }

  /** Reads on: `line` is what is kept of the line under way, or all that will be kept when it is too `long`. */
  method Take(r: LineReader, acc: Text, ghost s: Text, ghost total: seq<Text>, ghost out: seq<Text>)
    returns (line: Text, long: bool, isPrefix: bool, err: bool)
    requires |acc| <= CAP && Open(acc, r.rest) && Owed(total, out, acc, r.rest) && Tracked(s, acc, r.rest, r.full)
    modifies r
    ensures err ==> r.full == old(r.full)
    ensures long && isPrefix ==> Skipping(s, r.rest)
    ensures !long && isPrefix ==> Tracked(s, line, r.rest, r.full)
    ensures !err && !isPrefix ==> Tracked(s, [], r.rest, r.full)
    ensures |line| <= CAP && out <= total
    ensures err <==> old(r.rest) == []
    ensures err ==> line == acc && !long && r.rest == []
    ensures !err ==> |r.rest| < |old(r.rest)|
    ensures long ==> Owed(total, out + [line], [], if isPrefix then AfterLine(r.rest) else r.rest)
    ensures !long && isPrefix ==> Open(line, r.rest) && Owed(total, out, line, r.rest)
    ensures !err && !long && !isPrefix ==> Owed(total, out + FrameOf(line), [], r.rest)
  {
    hide Framed, LineEnd, Unended, Skipping, Tracked;
    ghost var before := r.rest;
    var chunk;
    chunk, isPrefix, err := r.ReadLine();
    line, long := Gather(acc, chunk);
    if isPrefix {
      TrackFragment(s, acc, chunk, r.rest, old(r.full));
      FragmentStep(total, out, acc, chunk, r.rest);
      if long {
        CutStep(total, out, acc + chunk, r.rest);
        SkipStep(s, acc + chunk, r.rest);
      }
    } else if err {
      assert acc + chunk == acc;
    } else {
      LineStep(total, out, acc, before);
      TrackLine(s, acc, before, old(r.full));
      assert long ==> FrameOf(acc + chunk) == [line];
    }
  }

  method ReadPipe(r: LineReader, sink: Sink, forced: bool)
    requires !sink.refused
    modifies r, sink
    ensures old(sink.out) <= sink.out
    ensures var got := sink.out[|old(sink.out)|..];
            var frames, report := Framed(old(r.rest)), Report(r.ending, forced);
            var overtaken := Overtaken(old(r.rest), r.full);
            if sink.refused then Partial(got, frames, report, overtaken) else Complete(got, frames, report, overtaken)
  {
    hide Framed, FrameOf, LineEnd, AfterLine, Complete, Partial, Report, Overtaken, Tracked, Skipping;
    var acc: Text := [];
    ghost var s, start, all, report := r.rest, sink.out, Framed(r.rest), Report(r.ending, forced);
    ghost var total := start + all;
    AllOwed(start, r.rest, r.full);
    while true
      invariant !sink.refused && start <= sink.out
      invariant |acc| <= CAP && Open(acc, r.rest)
      invariant Owed(total, sink.out, acc, r.rest) && Tracked(s, acc, r.rest, r.full)
      decreases |r.rest|
    {
      var long, isPrefix, err;
      acc, long, isPrefix, err := Take(r, acc, s, total, sink.out);
      if long {
        var ok := sink.Emit(acc);
        if !ok {
          FirstPart(start, all, sink.out, report, Overtaken(s, r.full));
          return;
        }
        acc := [];
        err := Discard(r, isPrefix, s);
        isPrefix := false;
      }
      if err {
        Finished(s, start, all, sink.out, acc, report, r.full);
        Finish(sink, acc, r.ending, forced);
        return;
      }
      if !isPrefix {
        NothingToFlush(sink.out);
        var ok := sink.Flush(acc);
        if !ok {
          FirstPart(start, all, sink.out, report, Overtaken(s, r.full));
          return;
        }
        acc := [];
      }
    }
  }

  lemma NothingToFlush(out: seq<Text>)
    ensures out + FrameOf([]) == out
  {
  }

  /** `out` is followed, in `total`, by the frames of the line read in part and of the rest of the stream. */
  ghost predicate Owed(total: seq<Text>, out: seq<Text>, acc: Text, rest: Text) {
    total == out + Framed(acc + rest)
  }

  /** What is known of the last line of the stream `s` while `acc` and `rest` are left of it. */
  ghost predicate Tracked(s: Text, acc: Text, rest: Text, full: bool) {
    if acc == [] && rest == [] then !Overtaken(s, full) else Unended(s) == Unended(acc + rest) && (acc != [] ==> full)
  }

  /** The same in the middle of a line that was cut. */
  ghost predicate Skipping(s: Text, rest: Text) {
    if LineEnd(rest) == |rest| then |Unended(s)| > CAP
    else AfterLine(rest) != [] ==> Unended(s) == Unended(AfterLine(rest))
  }

  lemma UnendedAfter(x: Text, s: Text)
    requires NEWLINE !in x
    ensures Unended(x + s) == if LineEnd(s) == |s| then x + s else Unended(AfterLine(s))
  {
    FragmentKeepsLine(x, s);
    var n := LineEnd(s);
    if n < |s| {
      assert (x + s)[|x| + n + 1..] == s[n + 1..];
    }
  }

  lemma TrackFragment(s: Text, acc: Text, chunk: Text, rest: Text, full: bool)
    requires chunk != [] && Tracked(s, acc, chunk + rest, full)
    ensures Tracked(s, acc + chunk, rest, true)
  {
    assert acc + chunk + rest == acc + (chunk + rest);
  }

  lemma TrackLine(s: Text, acc: Text, before: Text, full: bool)
    requires NEWLINE !in acc && before != [] && Tracked(s, acc, before, full)
    ensures Tracked(s, [], AfterLine(before), false)
  {
    UnendedAfter(acc, before);
    assert [] + AfterLine(before) == AfterLine(before);
  }

  lemma SkipStep(s: Text, line: Text, rest: Text)
    requires NEWLINE !in line && |line| > CAP && Tracked(s, line, rest, true)
    ensures Skipping(s, rest)
  {
    UnendedAfter(line, rest);
  }

  lemma SkipOn(s: Text, chunk: Text, rest: Text)
    requires NEWLINE !in chunk && Skipping(s, chunk + rest)
    ensures Skipping(s, rest)
  {
    FragmentKeepsLine(chunk, rest);
  }

  lemma SkipEnds(s: Text, before: Text)
    requires Skipping(s, before)
    ensures Tracked(s, [], AfterLine(before), false)
  {
    assert [] + AfterLine(before) == AfterLine(before);
  }

  lemma NothingLeft(s: Text, full: bool)
    requires Skipping(s, [])
    ensures Tracked(s, [], [], full) && AfterLine([]) == []
  {
  }

  lemma AllOwed(start: seq<Text>, rest: Text, full: bool)
    ensures Owed(start + Framed(rest), start, [], rest) && Tracked(rest, [], rest, full)
  {
    assert [] + rest == rest;
  }

  lemma FirstPart(start: seq<Text>, all: seq<Text>, out: seq<Text>, report: seq<Text>, overtaken: bool)
    requires start <= out <= start + all
    ensures Partial(out[|start|..], all, report, overtaken)
  {
    assert out[|start|..] == (start + all)[|start|..|out|];
  }

  lemma LastFrame(total: seq<Text>, out: seq<Text>, acc: Text)
    requires Owed(total, out, acc, []) && NEWLINE !in acc
    ensures total == out + FrameOf(acc)
  {
    assert acc + [] == acc;
    LineEndUnique(acc, |acc|);
  }

  lemma Finished(s: Text, start: seq<Text>, all: seq<Text>, out: seq<Text>, acc: Text, report: seq<Text>, full: bool)
    requires start <= out && Owed(start + all, out, acc, []) && NEWLINE !in acc && |acc| <= CAP
    requires Tracked(s, acc, [], full)
    ensures Complete((out + report + FrameOf(acc))[|start|..], all, report, Overtaken(s, full))
    ensures Partial(out[|start|..], all, report, Overtaken(s, full))
    ensures acc != [] ==> Partial((out + report)[|start|..], all, report, Overtaken(s, full))
    ensures Partial((out + FrameOf(acc))[|start|..], all, report, Overtaken(s, full))
  {
    hide Complete, Partial, Framed, AfterLine;
    LastFrame(start + all, out, acc);
    UnendedAfter(acc, []);
    assert acc + [] == acc;
    assert Overtaken(s, full) <==> acc != [];
    Arranged(start, all, out, FrameOf(acc), report);
  }

  lemma Arranged(start: seq<Text>, all: seq<Text>, out: seq<Text>, last: seq<Text>, report: seq<Text>)
    requires start <= out && start + all == out + last && |last| <= 1
    ensures Complete((out + report + last)[|start|..], all, report, last != [])
    ensures Partial(out[|start|..], all, report, last != [])
    ensures last != [] ==> Partial((out + report)[|start|..], all, report, last != [])
    ensures Partial((out + last)[|start|..], all, report, last != [])
  {
    var sent := out[|start|..];
    assert out == start + sent;
    assert all == (start + all)[|start|..] == sent + last;
    assert (out + report + last)[|start|..] == sent + report + last;
    assert (out + report)[|start|..] == sent + report;
    assert (out + last)[|start|..] == all;
    if last == [] {
      assert sent + report + [] == sent + report && all == sent;
    } else {
      assert all[..|all| - 1] == sent && all[|all| - 1..] == last;
    }
  }

  lemma FragmentKeepsLine(c: Text, rest: Text)
    requires NEWLINE !in c
    ensures LineEnd(c + rest) == |c| + LineEnd(rest)
    ensures AfterLine(c + rest) == AfterLine(rest)
  {
    LineEndMeans(rest);
    LineEndUnique(c + rest, |c| + LineEnd(rest));
  }

  lemma {:induction false} LineEndUnique(s: Text, n: nat)
    requires n <= |s| && NEWLINE !in s[..n] && (n < |s| ==> s[n] == NEWLINE)
    ensures LineEnd(s) == n
  {
    var m := LineEnd(s);
    LineEndMeans(s);
    forall i | 0 <= i < n ensures s[i] != NEWLINE {
      assert s[i] in s[..n];
    }
    forall i | 0 <= i < m ensures s[i] != NEWLINE {
      assert s[i] in s[..m];
    }
  }

  lemma ChompedTail(x: Text, y: Text)
    requires EndsInReturn(x) ==> y != []
    ensures Chomped(x + y) == x + Chomped(y)
  {
    if y == [] {
      assert x + y == x;
    } else {
      assert (x + y)[|x + y| - 1] == y[|y| - 1];
    }
  }

  lemma FramedUnfolds(s: Text)
    requires LineEnd(s) < |s|
    ensures Framed(s) == FrameOf(Chomped(s[..LineEnd(s)])) + Framed(s[LineEnd(s) + 1..])
  {
  }

  lemma LineThen(x: Text, s: Text)
    requires Open(x, s) && LineEnd(s) < |s|
    ensures Framed(x + s) == FrameOf(x + Chomped(s[..LineEnd(s)])) + Framed(AfterLine(s))
  {
    hide Framed, FrameOf, LineEnd;
    var n := LineEnd(s);
    FragmentKeepsLine(x, s);
    FramedUnfolds(x + s);
    assert (x + s)[..|x| + n] == x + s[..n];
    assert (x + s)[|x| + n + 1..] == s[n + 1..];
    LineEndMeans(s);
    assert n == 0 ==> s[0] == NEWLINE;
    ChompedTail(x, s[..n]);
  }

  lemma LastPiece(x: Text, s: Text)
    requires NEWLINE !in x && LineEnd(s) == |s|
    ensures Framed(x + s) == FrameOf(x + s) + Framed(AfterLine(s))
  {
    FragmentKeepsLine(x, s);
  }

  lemma CutSame(x: Text, y: Text)
    requires |x| > CAP
    ensures FrameOf(x + y) == [Cut(x)]
  {
    assert (x + y)[..CAP - |MARK|] == x[..CAP - |MARK|];
  }

  /** A line known to be too long is cut the same way whatever follows. */
  lemma TooLong(x: Text, s: Text)
    requires Open(x, s) && |x| > CAP
    ensures Framed(x + s) == [Cut(x)] + Framed(AfterLine(s))
  {
    if LineEnd(s) == |s| {
      LastPiece(x, s);
      CutSame(x, s);
    } else {
      LineThen(x, s);
      CutSame(x, Chomped(s[..LineEnd(s)]));
    }
  }

  /** A fragment moves from the stream to the line under way. */
  lemma FragmentStep(total: seq<Text>, out: seq<Text>, acc: Text, chunk: Text, rest: Text)
    requires Owed(total, out, acc, chunk + rest) && NEWLINE !in acc && chunk != [] && Open(chunk, rest)
    ensures Owed(total, out, acc + chunk, rest) && Open(acc + chunk, rest)
  {
    assert acc + (chunk + rest) == acc + chunk + rest;
    assert Framed(acc + (chunk + rest)) == Framed(acc + chunk + rest);
  }

  lemma CutStep(total: seq<Text>, out: seq<Text>, line: Text, rest: Text)
    requires Owed(total, out, line, rest) && Open(line, rest) && |line| > CAP
    ensures Owed(total, out + [Cut(line)], [], AfterLine(rest))
  {
    hide Framed;
    TooLong(line, rest);
    assert [] + AfterLine(rest) == AfterLine(rest);
  }

  lemma LineStep(total: seq<Text>, out: seq<Text>, acc: Text, before: Text)
    requires Open(acc, before) && Owed(total, out, acc, before)
    ensures Owed(total, out + FrameOf(acc + LineContent(before)), [], AfterLine(before))
  {
    hide Framed, FrameOf, LineEnd;
    assert [] + AfterLine(before) == AfterLine(before);
    if LineEnd(before) == |before| {
      LastPiece(acc, before);
    } else {
      LineThen(acc, before);
    }
  }

  // ----- What the frames say about the stream -----

  /** Only a read error that nobody forced is reported, as one frame: its message between "[read error: " and "]". */
  lemma OnlyErrorsAreReported(ending: Ending, forced: bool)
    ensures ending.Failure? && !forced ==>
              Report(ending, forced) == [[91, 114, 101, 97, 100, 32, 101, 114, 114, 111, 114, 58, 32] + ending.message + [93]]
    ensures ending.Eof? || forced ==> Report(ending, forced) == []
    ensures forall frames, overtaken | (overtaken ==> frames != []) && (ending.Eof? || forced) ::
              Complete(frames, frames, Report(ending, forced), overtaken)
  {
    forall frames: seq<Text>, overtaken | (overtaken ==> frames != []) && (ending.Eof? || forced)
      ensures Complete(frames, frames, Report(ending, forced), overtaken)
    {
      if overtaken {
        assert frames == frames[..|frames| - 1] + [] + frames[|frames| - 1..];
      } else {
        assert frames == frames + [];
      }
    }
  }

  /** A line above one MiB gives one frame of exactly one MiB: its first bytes, and the mark at the end. */
  lemma LongLineIsMarked(line: Text, rest: Text)
    requires NEWLINE !in line && !EndsInReturn(line) && |line| > 1048576
    ensures var mark: Text := [0xE2, 0x80, 0xA6, 91, 116, 114, 117, 110, 99, 97, 116, 101, 100, 93];
            && Framed(line + [NEWLINE] + rest) == [line[..1048562] + mark] + Framed(rest)
            && |line[..1048562] + mark| == 1048576
  {
    hide Framed;
    FirstWritten(line, false, rest);
    assert line + [] + [NEWLINE] + rest == line + [NEWLINE] + rest;
  }

  lemma FrameFits(content: Text)
    ensures forall f | f in FrameOf(content) :: |f| <= CAP
  {
  }

  /** No frame is larger than the cap. */
  lemma {:induction false} FramesFit(s: Text)
    ensures forall f | f in Framed(s) :: |f| <= CAP
  {
    hide FrameOf, LineContent;
    var n := LineEnd(s);
    FrameFits(LineContent(s));
    if n == |s| {
    } else {
      FramesFit(s[n + 1..]);
    }
  }

  /** The lines of a stream, without their terminators. */
  function Contents(s: Text): seq<Text> {
    var n := LineEnd(s);
    [LineContent(s)] + if n == |s| then [] else Contents(s[n + 1..])
  }

  /** A frame is empty exactly for the lines that hold a single carriage return besides their terminator. */
  lemma {:induction false} EmptyFrames(s: Text)
    ensures [] in Framed(s) <==> [RETURN] in Contents(s)
  {
    var n := LineEnd(s);
    EmptyFrame(LineContent(s));
    if n == |s| {
    } else {
      EmptyFrames(s[n + 1..]);
    }
  }

  lemma EmptyFrame(content: Text)
    ensures [] in FrameOf(content) <==> content == [RETURN]
  {
    if [] in FrameOf(content) {
      assert Chomped(content) == [];
      assert content == [content[0]];
    }
  }

  /** The lines as a provider writes them, each ended by a newline or by a carriage return and a newline. */
  function Written(lines: seq<Text>, crlf: seq<bool>): Text
    requires |lines| == |crlf|
  {
    if lines == [] then []
    else lines[0] + (if crlf[0] then [RETURN] else []) + [NEWLINE] + Written(lines[1..], crlf[1..])
  }

  function Shown(lines: seq<Text>): seq<Text> {
    if lines == [] then [] else FrameOf(lines[0]) + Shown(lines[1..])
  }

  /** Each line written gives its own frame, in order, however it is terminated. */
  lemma {:induction false} WrittenLinesAreFramed(lines: seq<Text>, crlf: seq<bool>)
    requires |lines| == |crlf| && forall i | 0 <= i < |lines| :: Open(lines[i], [])
    ensures Framed(Written(lines, crlf)) == Shown(lines)
  {
    if lines == [] {
    } else {
      WrittenLinesAreFramed(lines[1..], crlf[1..]);
      FirstWritten(lines[0], crlf[0], Written(lines[1..], crlf[1..]));
    }
  }

  lemma FirstWritten(line: Text, crlf: bool, rest: Text)
    requires Open(line, [])
    ensures Framed(line + (if crlf then [RETURN] else []) + [NEWLINE] + rest) == FrameOf(line) + Framed(rest)
  {
    hide Framed;
    var end: Text := if crlf then [RETURN] else [];
    var s := line + end + [NEWLINE] + rest;
    LineEndUnique(s, |line + end|);
    FramedUnfolds(s);
    assert s[..|line + end|] == line + end;
    assert s[|line + end| + 1..] == rest;
    assert Chomped(line + end) == line;
  }

  function Total(texts: seq<Text>): nat {
    if texts == [] then 0 else |texts[0]| + Total(texts[1..])
  }

  lemma {:induction false} TotalAdds(a: seq<Text>, b: seq<Text>)
    ensures Total(a + b) == Total(a) + Total(b)
  {
    if a == [] {
      assert a + b == b;
    } else {
      TotalAdds(a[1..], b);
      assert (a + b)[1..] == a[1..] + b;
    }
  }

  /** Whatever a line ends in, its frame is no longer than the line, and shorter where the line ends in a return. */
  lemma FirstShrinks(line: Text, crlf: bool, rest: Text) returns (f: seq<Text>)
    requires NEWLINE !in line && 0 < |line| <= CAP
    ensures Framed(line + (if crlf then [RETURN] else []) + [NEWLINE] + rest) == f + Framed(rest)
    ensures Total(f) <= |line| && (EndsInReturn(line) ==> Total(f) < |line|)
  {
    hide Framed;
    var end: Text := if crlf then [RETURN] else [];
    var s := line + end + [NEWLINE] + rest;
    LineEndUnique(s, |line + end|);
    FramedUnfolds(s);
    assert s[..|line + end|] == line + end;
    assert s[|line + end| + 1..] == rest;
    var content := if crlf then line else Chomped(line);
    assert Chomped(line + end) == content by {
      assert crlf ==> (line + end)[..|line|] == line;
      assert !crlf ==> line + end == line;
    }
    f := FrameOf(content);
    assert content != [] ==> f == [Chomped(content)] && f[1..] == [];
  }

  /** Some line that ends in a carriage return leaves the frames with fewer bytes than the lines. */
  lemma {:induction false} ReturnsAreLost(lines: seq<Text>, crlf: seq<bool>)
    requires |lines| == |crlf|
    requires forall i | 0 <= i < |lines| :: NEWLINE !in lines[i] && 0 < |lines[i]| <= CAP
    ensures Total(Framed(Written(lines, crlf))) <= Total(lines)
    ensures (exists i :: 0 <= i < |lines| && EndsInReturn(lines[i])) ==> Total(Framed(Written(lines, crlf))) < Total(lines)
  {
    hide Framed;
    if lines == [] {
      NothingFramed();
    } else {
      var rest := Written(lines[1..], crlf[1..]);
      ReturnsAreLost(lines[1..], crlf[1..]);
      var f := FirstShrinks(lines[0], crlf[0], rest);
      TotalAdds(f, Framed(rest));
      if i :| 0 <= i < |lines| && EndsInReturn(lines[i]) {
        assert i > 0 ==> EndsInReturn(lines[1..][i - 1]);
      }
    }
  }

  lemma NothingFramed()
    ensures Framed([]) == []
  {
  }

  /**
   Lines that are not empty and fit the cap, up to and including exactly `CAP` bytes, come back unchanged if and only
   if none of them ends in a carriage return.
   */
  lemma {:induction false} FittingLinesComeBack(lines: seq<Text>, crlf: seq<bool>)
    requires |lines| == |crlf|
    requires forall i | 0 <= i < |lines| :: NEWLINE !in lines[i] && 0 < |lines[i]| <= CAP
    ensures Framed(Written(lines, crlf)) == lines <==> forall i | 0 <= i < |lines| :: !EndsInReturn(lines[i])
  {
    hide Framed;
    if forall i | 0 <= i < |lines| :: !EndsInReturn(lines[i]) {
      WrittenLinesAreFramed(lines, crlf);
      ShownAsWritten(lines);
    } else {
      ReturnsAreLost(lines, crlf);
    }
  }

  lemma {:induction false} ShownAsWritten(lines: seq<Text>)
    requires forall i | 0 <= i < |lines| :: Open(lines[i], []) && 0 < |lines[i]| <= CAP
    ensures Shown(lines) == lines
  {
    if lines == [] {
    } else {
      ShownAsWritten(lines[1..]);
      assert lines == [lines[0]] + lines[1..];
    }
  }
}
