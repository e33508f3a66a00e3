/** How a connection cuts the octets it receives, in whatever chunks they arrive, into lines and bodies. */
module Intake {
  import opened Text
  import opened Lines
  import opened Messages
  import opened Framing

  datatype LineTake = Line(line: string) | Need | TooLong

  /** `take_line`: what it answers and what it leaves in the buffer. */
  function TakeLine(rbuf: string, max: nat): (LineTake, string)
  {
    match FirstLf(rbuf)
    case Some(p) =>
      var line := StripCr(rbuf[..p]);
      (if |line| > max then TooLong else Line(line), rbuf[p + 1..])
    case None => (if |rbuf| > max then TooLong else Need, rbuf)
  }

  function Flat(chunks: seq<string>): string
  {
    if chunks == [] then [] else chunks[0] + Flat(chunks[1..])
  }

  /** Everything received and still to come. */
  function Stream(rbuf: string, chunks: seq<string>): string
  {
    rbuf + Flat(chunks)
  }

  datatype Pulled =
    | Complete(line: string, rbuf: string, chunks: seq<string>)
    | Over(rbuf: string, chunks: seq<string>)
    | Ended(rbuf: string, chunks: seq<string>)

  /** `read_line_blocking`: take a line, reading one more chunk whenever none is complete. */
  function PullLine(rbuf: string, chunks: seq<string>, max: nat): Pulled
    decreases |chunks|
  {
    var (take, rest) := TakeLine(rbuf, max);
    match take
    case Line(line) => Complete(line, rest, chunks)
    case TooLong => Over(rest, chunks)
    case Need => if chunks == [] then Ended(rbuf, []) else PullLine(rbuf + chunks[0], chunks[1..], max)
  }

  // --- lines do not depend on the chunks -----------------------------------------------------------

  /** Some read ended exactly `p` octets into the stream. */
  predicate BoundaryAt(rbuf: string, chunks: seq<string>, p: nat)
    decreases |chunks|
  {
    |rbuf| == p || (chunks != [] && BoundaryAt(rbuf + chunks[0], chunks[1..], p))
  }

  lemma StreamStep(rbuf: string, chunks: seq<string>)
    requires chunks != []
    ensures Stream(rbuf + chunks[0], chunks[1..]) == Stream(rbuf, chunks)
  {
    assert rbuf + chunks[0] + Flat(chunks[1..]) == rbuf + (chunks[0] + Flat(chunks[1..]));
  }

  /** An LF already buffered is the first LF of the stream. */
  lemma BufferedLf(rbuf: string, chunks: seq<string>)
    requires FirstLf(rbuf).Some?
    ensures FirstLf(Stream(rbuf, chunks)) == FirstLf(rbuf)
    ensures var p := FirstLf(rbuf).value;
            Stream(rbuf, chunks)[..p] == rbuf[..p] && Stream(rbuf, chunks)[p + 1..] == Stream(rbuf[p + 1..], chunks)
  {
    hide FirstLf, Flat;
    var p, s := FirstLf(rbuf).value, Stream(rbuf, chunks);
    assert s[..p] == rbuf[..p];
    FirstLfIs(s, p);
  }

  lemma UnbufferedLf(rbuf: string, chunks: seq<string>)
    requires FirstLf(rbuf).None? && FirstLf(Stream(rbuf, chunks)).Some?
    ensures FirstLf(Stream(rbuf, chunks)).value >= |rbuf|
  {
    assert forall i :: 0 <= i < |rbuf| ==> Stream(rbuf, chunks)[i] == rbuf[i] && rbuf[i] in rbuf;
  }

  lemma NoBoundaryBefore(rbuf: string, chunks: seq<string>, p: nat)
    requires |rbuf| > p
    ensures !BoundaryAt(rbuf, chunks, p)
    decreases |chunks|
  {
    if chunks != [] {
      NoBoundaryBefore(rbuf + chunks[0], chunks[1..], p);
    }
  }

  /** The line that a stream yields: its LF at most `max` octets in, or one further behind a CR
      that no read separated from it. */
  predicate Acceptable(rbuf: string, chunks: seq<string>, max: nat)
  {
    var s := Stream(rbuf, chunks);
    match FirstLf(s)
    case None => false
    case Some(p) => p <= max || (p == max + 1 && s[max] == CR && !BoundaryAt(rbuf, chunks, p))
  }

  lemma AcceptableStep(rbuf: string, chunks: seq<string>, max: nat)
    requires chunks != [] && |rbuf| <= max
    ensures Acceptable(rbuf + chunks[0], chunks[1..], max) == Acceptable(rbuf, chunks, max)
  {
    StreamStep(rbuf, chunks);
  }

  lemma PullBuffered(rbuf: string, chunks: seq<string>, max: nat)
    requires FirstLf(rbuf).Some?
    ensures PullLine(rbuf, chunks, max).Complete? <==> Acceptable(rbuf, chunks, max)
    ensures !PullLine(rbuf, chunks, max).Ended?
  {
    BufferedLf(rbuf, chunks);
    var p := FirstLf(rbuf).value;
    NoBoundaryBefore(rbuf, chunks, p);
    if p > 0 {
      assert rbuf[..p][p - 1] == Stream(rbuf, chunks)[p - 1];
    }
  }

  /** A line is accepted exactly when it is acceptable, and input ends only inside a short line. */
  lemma {:induction false} PullLineIff(rbuf: string, chunks: seq<string>, max: nat)
    ensures PullLine(rbuf, chunks, max).Complete? <==> Acceptable(rbuf, chunks, max)
    ensures PullLine(rbuf, chunks, max).Ended?
       <==> LF !in Stream(rbuf, chunks) && |Stream(rbuf, chunks)| <= max
    decreases |chunks|
  {
    if FirstLf(rbuf).Some? {
      PullBuffered(rbuf, chunks, max);
      assert Stream(rbuf, chunks)[FirstLf(rbuf).value] == LF;
    } else if |rbuf| > max {
      if FirstLf(Stream(rbuf, chunks)).Some? {
        UnbufferedLf(rbuf, chunks);
      }
    } else if chunks != [] {
      AcceptableStep(rbuf, chunks, max);
      StreamStep(rbuf, chunks);
      PullLineIff(rbuf + chunks[0], chunks[1..], max);
    } else {
      assert Stream(rbuf, chunks) == rbuf;
    }
  }

  /** The accepted line is the stream's next line and nothing after it is lost, duplicated or
      reordered, however the stream was cut into reads. */
  lemma {:induction false} PullLineIsNextLine(rbuf: string, chunks: seq<string>, max: nat)
    requires PullLine(rbuf, chunks, max).Complete?
    ensures var got := PullLine(rbuf, chunks, max);
            NextLine(Stream(rbuf, chunks)) == Some((got.line, Stream(got.rbuf, got.chunks)))
    decreases |chunks|
  {
    if FirstLf(rbuf).Some? {
      BufferedLf(rbuf, chunks);
    } else {
      StreamStep(rbuf, chunks);
      PullLineIsNextLine(rbuf + chunks[0], chunks[1..], max);
    }
  }

  /** Within `max` octets, CR included, the line read is the same for every cutting into reads. */
  lemma ChunksDoNotMatter(rbuf: string, chunks: seq<string>, rbuf': string, chunks': seq<string>, max: nat)
    requires Stream(rbuf, chunks) == Stream(rbuf', chunks')
    requires FirstLf(Stream(rbuf, chunks)).Some? && FirstLf(Stream(rbuf, chunks)).value <= max
    ensures var a, b := PullLine(rbuf, chunks, max), PullLine(rbuf', chunks', max);
            a.Complete? && b.Complete? && a.line == b.line && Stream(a.rbuf, a.chunks) == Stream(b.rbuf, b.chunks)
  {
    hide PullLine, FirstLf;
    PullLineIff(rbuf, chunks, max);
    PullLineIff(rbuf', chunks', max);
    PullLineIsNextLine(rbuf, chunks, max);
    PullLineIsNextLine(rbuf', chunks', max);
  }

  /** One octet further the verdict does depend on the chunks: a line of exactly `max` octets
      ended by CRLF is refused if a read ends between its CR and its LF, and accepted if not. */
  lemma BoundaryMatters(line: string, rest: string)
    requires LF !in line
    ensures PullLine([], [line + [CR], [LF] + rest], |line|).Over?
    ensures PullLine([], [line + CRLF + rest], |line|).Complete?
  {
    hide PullLine, FirstLf, TakeLine;
    var max := |line|;
    var cut := line + [CR];
    CutTooLong(cut, [LF] + rest, max);
    var whole := [line + CRLF + rest];
    assert Flat(whole[1..]) == [] && Stream([], whole) == line + CRLF + rest && [] + whole[0] == whole[0];
    LfAfterCr(line, rest);
    NoBoundaryBefore(whole[0], [], |line| + 1);
    PullLineIff([], whole, max);
  }

  lemma CutTooLong(cut: string, rest: string, max: nat)
    requires LF !in cut && |cut| > max
    ensures PullLine([], [cut, rest], max) == Over(cut, [rest])
  {
    assert [] + cut == cut && [cut, rest][1..] == [rest];
    assert TakeLine(cut, max) == (TooLong, cut);
  }

  lemma LfAfterCr(line: string, rest: string)
    requires LF !in line
    ensures var s := line + CRLF + rest; FirstLf(s) == Some(|line| + 1) && s[|line|] == CR && LF in s
  {
    var s := line + CRLF + rest;
    assert s[..|line| + 1] == line + [CR];
    FirstLfIs(s, |line| + 1);
    assert s[|line| + 1] == LF;
  }

  // --- bodies ----------------------------------------------------------------------------------------

  datatype BodyPull =
    | Whole(raw: seq<string>, rbuf: string, chunks: seq<string>)
    | OverLong(rbuf: string, chunks: seq<string>)
    | Eof(rbuf: string, chunks: seq<string>)

  lemma PullLineShrinks(rbuf: string, chunks: seq<string>, max: nat)
    ensures PullLine(rbuf, chunks, max).Complete? ==>
      |Stream(PullLine(rbuf, chunks, max).rbuf, PullLine(rbuf, chunks, max).chunks)| < |Stream(rbuf, chunks)|
  {
    if PullLine(rbuf, chunks, max).Complete? {
      PullLineIsNextLine(rbuf, chunks, max);
      NextLineShrinks(Stream(rbuf, chunks));
    }
  }

  /** Lines up to the lone `.`; an over-long line stops the reading where it is. */
  function PullBody(rbuf: string, chunks: seq<string>, max: nat): BodyPull
    decreases |Stream(rbuf, chunks)|
  {
    PullLineShrinks(rbuf, chunks, max);
    match PullLine(rbuf, chunks, max)
    case Ended(r, c) => Eof(r, c)
    case Over(r, c) => OverLong(r, c)
    case Complete(line, r, c) =>
      if line == TERMINATOR then Whole([], r, c) else Before([line], PullBody(r, c, max))
  }

  function Before(raw: seq<string>, got: BodyPull): BodyPull
  {
    if got.Whole? then got.(raw := raw + got.raw) else got
  }

  /** Up to and with the lone `.`, every line has its LF at most `max` octets in. */
  predicate LinesFit(s: string, max: nat)
    decreases |s|
  {
    NextLineShrinks(s);
    match NextLine(s)
    case None => false
    case Some((line, rest)) => FirstLf(s).value <= max && (line == TERMINATOR || LinesFit(rest, max))
  }

  /** A terminated body whose lines fit is read in full, and reading stops right after it. */
  lemma {:induction false} BodyIsRead(rbuf: string, chunks: seq<string>, max: nat)
    requires LinesFit(Stream(rbuf, chunks), max)
    ensures var got := PullBody(rbuf, chunks, max);
            got.Whole? && SplitBlock(Stream(rbuf, chunks)) == Some((got.raw, Stream(got.rbuf, got.chunks)))
    decreases |Stream(rbuf, chunks)|
  {
    hide PullLine, FirstLf;
    PullLineIff(rbuf, chunks, max);
    PullLineIsNextLine(rbuf, chunks, max);
    PullLineShrinks(rbuf, chunks, max);
    var got := PullLine(rbuf, chunks, max);
    if got.line != TERMINATOR {
      BodyIsRead(got.rbuf, got.chunks, max);
    }
  }

  /** Conversely a body read in full is the stream's first block, and none of its lines is over-long. */
  lemma {:induction false} ReadIsBody(rbuf: string, chunks: seq<string>, max: nat)
    requires PullBody(rbuf, chunks, max).Whole?
    ensures var got := PullBody(rbuf, chunks, max);
            && SplitBlock(Stream(rbuf, chunks)) == Some((got.raw, Stream(got.rbuf, got.chunks)))
            && |TERMINATOR| <= max && forall l :: l in got.raw ==> |l| <= max
    decreases |Stream(rbuf, chunks)|
  {
    PullLineIsNextLine(rbuf, chunks, max);
    PullLineShrinks(rbuf, chunks, max);
    LineIsShort(rbuf, chunks, max);
    var got := PullLine(rbuf, chunks, max);
    if got.line != TERMINATOR {
      ReadIsBody(got.rbuf, got.chunks, max);
    }
  }

  lemma {:induction false} LineIsShort(rbuf: string, chunks: seq<string>, max: nat)
    requires PullLine(rbuf, chunks, max).Complete?
    ensures |PullLine(rbuf, chunks, max).line| <= max
    decreases |chunks|
  {
    if FirstLf(rbuf).None? {
      LineIsShort(rbuf + chunks[0], chunks[1..], max);
    }
  }

  // --- which bodies are read to their end ------------------------------------------------------------

  /** The buffer and the reads still to come once `k` octets are consumed. */
  function Advance(rbuf: string, chunks: seq<string>, k: nat): (string, seq<string>)
    requires k <= |Stream(rbuf, chunks)|
    decreases |chunks|
  {
    if k <= |rbuf| then (rbuf[k..], chunks)
    else
      StreamStep(rbuf, chunks);
      Advance(rbuf + chunks[0], chunks[1..], k)
  }

  lemma {:induction false} AdvanceStream(rbuf: string, chunks: seq<string>, k: nat)
    requires k <= |Stream(rbuf, chunks)|
    ensures Stream(Advance(rbuf, chunks, k).0, Advance(rbuf, chunks, k).1) == Stream(rbuf, chunks)[k..]
    decreases |chunks|
  {
    if k > |rbuf| {
      StreamStep(rbuf, chunks);
      AdvanceStream(rbuf + chunks[0], chunks[1..], k);
    }
  }

  /** An accepted line is consumed with its LF and no further. */
  lemma {:induction false} PullAdvances(rbuf: string, chunks: seq<string>, max: nat)
    requires PullLine(rbuf, chunks, max).Complete?
    ensures var got, lf := PullLine(rbuf, chunks, max), FirstLf(Stream(rbuf, chunks));
            lf.Some? && (got.rbuf, got.chunks) == Advance(rbuf, chunks, lf.value + 1)
    decreases |chunks|
  {
    if FirstLf(rbuf).Some? {
      BufferedLf(rbuf, chunks);
    } else {
      StreamStep(rbuf, chunks);
      PullAdvances(rbuf + chunks[0], chunks[1..], max);
      UnbufferedLf(rbuf, chunks);
    }
  }

  /** Up to and with the lone `.`, every line is acceptable where it starts. */
  predicate LinesAcceptable(rbuf: string, chunks: seq<string>, max: nat)
    decreases |Stream(rbuf, chunks)|
  {
    Acceptable(rbuf, chunks, max)
    && var p := FirstLf(Stream(rbuf, chunks)).value;
       StripCr(Stream(rbuf, chunks)[..p]) == TERMINATOR
       || (AdvanceStream(rbuf, chunks, p + 1);
           LinesAcceptable(Advance(rbuf, chunks, p + 1).0, Advance(rbuf, chunks, p + 1).1, max))
  }

  /** A body is read to its terminator exactly when every line of it is acceptable where it starts. */
  lemma {:induction false} BodyReadIff(rbuf: string, chunks: seq<string>, max: nat)
    ensures PullBody(rbuf, chunks, max).Whole? <==> LinesAcceptable(rbuf, chunks, max)
    decreases |Stream(rbuf, chunks)|
  {
    hide PullLine, FirstLf, Acceptable, Advance;
    PullLineIff(rbuf, chunks, max);
    var got := PullLine(rbuf, chunks, max);
    if got.Complete? {
      PullAdvances(rbuf, chunks, max);
      PullLineIsNextLine(rbuf, chunks, max);
      PullLineShrinks(rbuf, chunks, max);
      if got.line != TERMINATOR {
        BodyReadIff(got.rbuf, got.chunks, max);
      }
    }
  }

  /** The stream arriving octet by octet. */
  function Singles(s: string): (chunks: seq<string>)
    ensures Flat(chunks) == s
  {
    if s == [] then []
    else
      var chunks := [[s[0]]] + Singles(s[1..]);
      assert chunks[1..] == Singles(s[1..]) && [s[0]] + s[1..] == s;
      chunks
  }

  lemma {:induction false} BoundaryEverywhere(rbuf: string, s: string, p: nat)
    requires |rbuf| <= p <= |rbuf| + |s|
    ensures BoundaryAt(rbuf, Singles(s), p)
    decreases |s|
  {
    if p > |rbuf| {
      assert Singles(s)[1..] == Singles(s[1..]);
      BoundaryEverywhere(rbuf + [s[0]], s[1..], p);
    }
  }

  lemma {:induction false} AdvanceSingles(rbuf: string, s: string, k: nat)
    requires |rbuf| <= k <= |rbuf| + |s|
    ensures Advance(rbuf, Singles(s), k) == ([], Singles(s[k - |rbuf|..]))
    decreases |s|
  {
    if k > |rbuf| {
      assert Singles(s)[1..] == Singles(s[1..]) && Singles(s)[0] == [s[0]];
      AdvanceSingles(rbuf + [s[0]], s[1..], k);
      assert s[1..][k - |rbuf| - 1..] == s[k - |rbuf|..];
    } else {
      assert s[0..] == s && rbuf[k..] == [];
    }
  }

  lemma FirstOctetsFit(s: string, max: nat)
    requires LinesAcceptable([], Singles(s), max)
    ensures NextLine(s).Some? && FirstLf(s).value <= max
    ensures NextLine(s).value.0 == TERMINATOR || LinesAcceptable([], Singles(NextLine(s).value.1), max)
  {
    hide FirstLf, Singles, BoundaryAt, Advance;
    var p := FirstLf(s).value;
    assert Stream([], Singles(s)) == s;
    BoundaryEverywhere([], s, p);
    AdvanceSingles([], s, p + 1);
  }

  lemma {:induction false} OctetsNeedFit(s: string, max: nat)
    requires LinesAcceptable([], Singles(s), max)
    ensures LinesFit(s, max)
    decreases |s|
  {
    hide FirstLf, Singles, LinesAcceptable, NextLine;
    FirstOctetsFit(s, max);
    var (line, rest) := NextLine(s).value;
    if line != TERMINATOR {
      NextLineShrinks(s);
      OctetsNeedFit(rest, max);
    }
  }

  /** Every cutting of a stream into reads lets its body through exactly when each line of it has its LF
      at most `max` octets in. */
  lemma EveryCuttingIff(s: string, max: nat)
    ensures (forall rbuf, chunks :: Stream(rbuf, chunks) == s ==> PullBody(rbuf, chunks, max).Whole?)
       <==> LinesFit(s, max)
  {
    hide PullBody, LinesFit, Singles, LinesAcceptable;
    if LinesFit(s, max) {
      forall rbuf, chunks | Stream(rbuf, chunks) == s ensures PullBody(rbuf, chunks, max).Whole? {
        BodyIsRead(rbuf, chunks, max);
      }
    }
    if forall rbuf, chunks :: Stream(rbuf, chunks) == s ==> PullBody(rbuf, chunks, max).Whole? {
      assert Stream([], Singles(s)) == s;
      BodyReadIff([], Singles(s), max);
      OctetsNeedFit(s, max);
    }
  }

  /** The first block ends, and none of its lines, without CRLF, is longer than `max`. */
  ghost predicate LinesShort(s: string, max: nat)
  {
    SplitBlock(s).Some? && |TERMINATOR| <= max && forall l :: l in SplitBlock(s).value.0 ==> |l| <= max
  }

  lemma OneReadLine(s: string, max: nat)
    ensures Acceptable(s, [], max) <==> NextLine(s).Some? && |NextLine(s).value.0| <= max
  {
    assert Stream(s, []) == s;
    match FirstLf(s)
    case None =>
    case Some(p) =>
      NoBoundaryBefore(s, [], p);
      assert p > 0 ==> s[..p][p - 1] == s[p - 1];
  }

  lemma {:induction false} OneReadIff(s: string, max: nat)
    ensures LinesAcceptable(s, [], max) <==> LinesShort(s, max)
    decreases |s|
  {
    hide FirstLf, Acceptable;
    assert Stream(s, []) == s;
    OneReadLine(s, max);
    if Acceptable(s, [], max) {
      var (line, rest) := NextLine(s).value;
      NextLineShrinks(s);
      if line != TERMINATOR {
        OneReadIff(rest, max);
      }
    }
  }

  /** Some cutting lets the body through exactly when no line of it, without CRLF, is too long. */
  lemma SomeCuttingIff(s: string, max: nat)
    ensures (exists rbuf, chunks :: Stream(rbuf, chunks) == s && PullBody(rbuf, chunks, max).Whole?)
       <==> LinesShort(s, max)
  {
    hide PullBody, LinesAcceptable;
    if LinesShort(s, max) {
      assert Stream(s, []) == s;
      OneReadIff(s, max);
      BodyReadIff(s, [], max);
    }
    if rbuf, chunks :| Stream(rbuf, chunks) == s && PullBody(rbuf, chunks, max).Whole? {
      ReadIsBody(rbuf, chunks, max);
    }
  }

  /** When a terminated body is not read to its end, reading stopped at an over-long line and the
      terminator is still to come: the rest of the body is read as commands. */
  lemma {:induction false} UndrainedBody(rbuf: string, chunks: seq<string>, max: nat)
    requires max > 0 && SplitBlock(Stream(rbuf, chunks)).Some? && !PullBody(rbuf, chunks, max).Whole?
    ensures var got, s := PullBody(rbuf, chunks, max), Stream(rbuf, chunks);
            && got.OverLong? && SplitBlock(Stream(got.rbuf, got.chunks)).Some?
            && SplitBlock(Stream(got.rbuf, got.chunks)).value.1 == SplitBlock(s).value.1
    decreases |Stream(rbuf, chunks)|
  {
    hide PullLine, FirstLf;
    PullLineIff(rbuf, chunks, max);
    var s, got := Stream(rbuf, chunks), PullLine(rbuf, chunks, max);
    TerminatedHasLf(s);
    if got.Over? {
      OverLeaves(rbuf, chunks, max);
    } else {
      PullLineIsNextLine(rbuf, chunks, max);
      PullLineShrinks(rbuf, chunks, max);
      UndrainedBody(got.rbuf, got.chunks, max);
    }
  }

  lemma TerminatedHasLf(s: string)
    requires SplitBlock(s).Some?
    ensures LF in s && NextLine(s).Some?
  {
    assert s[FirstLf(s).value] == LF;
  }

  /** An over-long line leaves the stream as it is, or is consumed with its LF. */
  lemma {:induction false} OverLeaves(rbuf: string, chunks: seq<string>, max: nat)
    requires PullLine(rbuf, chunks, max).Over? && SplitBlock(Stream(rbuf, chunks)).Some? && max > 0
    ensures var got, s := PullLine(rbuf, chunks, max), Stream(rbuf, chunks);
            && SplitBlock(Stream(got.rbuf, got.chunks)).Some?
            && SplitBlock(Stream(got.rbuf, got.chunks)).value.1 == SplitBlock(s).value.1
    decreases |chunks|
  {
    if FirstLf(rbuf).Some? {
      BufferedLf(rbuf, chunks);
    } else if |rbuf| <= max {
      StreamStep(rbuf, chunks);
      OverLeaves(rbuf + chunks[0], chunks[1..], max);
    }
  }

  // --- what was consumed -----------------------------------------------------------------------------------

  /** The octets of the line just taken. */
  lemma LineTaken(rbuf: string, chunks: seq<string>, max: nat) returns (taken: string)
    requires PullLine(rbuf, chunks, max).Complete?
    ensures var got := PullLine(rbuf, chunks, max);
            Stream(rbuf, chunks) == taken + Stream(got.rbuf, got.chunks) && IsLine(taken, got.line)
  {
    PullLineIsNextLine(rbuf, chunks, max);
    taken := TakeNext(Stream(rbuf, chunks));
  }

  /** `taken` is one line with its terminator. */
  ghost predicate IsLine(taken: string, line: string)
  {
    forall rest :: NextLine(taken + rest) == Some((line, rest))
  }

  lemma TakeNext(s: string) returns (taken: string)
    requires NextLine(s).Some?
    ensures s == taken + NextLine(s).value.1 && IsLine(taken, NextLine(s).value.0)
  {
    var p := FirstLf(s).value;
    taken := s[..p + 1];
    forall rest ensures NextLine(taken + rest) == Some((NextLine(s).value.0, rest)) {
      assert (taken + rest)[..p] == s[..p] && (taken + rest)[p + 1..] == rest;
      FirstLfIs(taken + rest, p);
    }
  }

  /** The octets of the body just read, or of its lines up to an over-long or unfinished one. */
  lemma {:induction false} BodyTaken(rbuf: string, chunks: seq<string>, max: nat) returns (taken: string)
    ensures var got := PullBody(rbuf, chunks, max);
            && Stream(rbuf, chunks) == taken + Stream(got.rbuf, got.chunks)
            && (if got.Whole? then SplitBlock(taken) == Some((got.raw, [])) && max > 0 else Unterminated(taken, max))
    decreases |Stream(rbuf, chunks)|
  {
    hide PullLine, SplitBlock, Stream;
    var got := PullLine(rbuf, chunks, max);
    if got.Over? {
      taken := OverTaken(rbuf, chunks, max);
    } else if got.Ended? {
      taken := [];
      EndedKeeps(rbuf, chunks, max);
    } else {
      PullLineShrinks(rbuf, chunks, max);
      var first := LineTaken(rbuf, chunks, max);
      if got.line == TERMINATOR {
        taken := first;
        BlockEnds(first);
        LineIsShort(rbuf, chunks, max);
      } else {
        var more := BodyTaken(got.rbuf, got.chunks, max);
        taken := first + more;
        BlockContinues(first, got.line, more);
        var after := PullBody(got.rbuf, got.chunks, max);
        assert first + (more + Stream(after.rbuf, after.chunks)) == taken + Stream(after.rbuf, after.chunks);
      }
    }
  }

  lemma {:induction false} EndedKeeps(rbuf: string, chunks: seq<string>, max: nat)
    requires PullLine(rbuf, chunks, max).Ended?
    ensures var got := PullLine(rbuf, chunks, max); Stream(got.rbuf, got.chunks) == Stream(rbuf, chunks)
    ensures SplitBlock([]) == None
    decreases |chunks|
  {
    if chunks == [] {
    } else {
      StreamStep(rbuf, chunks);
      EndedKeeps(rbuf + chunks[0], chunks[1..], max);
    }
  }

  /** No lone `.` was consumed, unless even that was over-long. */
  predicate Unterminated(taken: string, max: nat)
  {
    SplitBlock(taken) == None || (max == 0 && SplitBlock(taken).value.1 == [])
  }

  lemma BlockEnds(first: string)
    requires IsLine(first, TERMINATOR)
    ensures SplitBlock(first) == Some(([], []))
  {
    assert NextLine(first + []) == Some((TERMINATOR, []));
    assert first + [] == first;
  }

  lemma BlockContinues(first: string, line: string, more: string)
    requires IsLine(first, line) && line != TERMINATOR
    ensures SplitBlock(first + more) == match SplitBlock(more)
                                        case None => None
                                        case Some((raw, after)) => Some(([line] + raw, after))
  {
    assert NextLine(first + more) == Some((line, more));
  }

  lemma OneLine(taken: string, line: string)
    requires IsLine(taken, line)
    ensures SplitBlock(taken) == if line == TERMINATOR then Some(([], [])) else None
  {
    if line == TERMINATOR {
      BlockEnds(taken);
    } else {
      BlockContinues(taken, line, []);
      assert taken + [] == taken && SplitBlock([]) == None;
    }
  }

  /** What an over-long line costs: the line if its LF had arrived, nothing otherwise. */
  lemma {:induction false} OverTaken(rbuf: string, chunks: seq<string>, max: nat) returns (taken: string)
    requires PullLine(rbuf, chunks, max).Over?
    ensures var got := PullLine(rbuf, chunks, max);
            Stream(rbuf, chunks) == taken + Stream(got.rbuf, got.chunks) && Unterminated(taken, max)
    decreases |chunks|
  {
    if FirstLf(rbuf).Some? {
      BufferedLf(rbuf, chunks);
      taken := TakeNext(rbuf);
      OneLine(taken, NextLine(rbuf).value.0);
      assert Stream(rbuf, chunks) == taken + Stream(NextLine(rbuf).value.1, chunks);
    } else if |rbuf| > max {
      taken := [];
      assert SplitBlock([]) == None;
    } else {
      StreamStep(rbuf, chunks);
      taken := OverTaken(rbuf + chunks[0], chunks[1..], max);
    }
  }

  // --- step by step ----------------------------------------------------------------------------------------

  /** One line, with its line end, of more than `max` octets. */
  ghost predicate IsOverLong(taken: string, max: nat)
  {
    exists line :: IsLine(taken, line) && |line| > max
  }

  /** The octets that `take_line` removed from the buffer. */
  lemma Removed(rbuf: string, max: nat) returns (taken: string)
    ensures var (take, rest) := TakeLine(rbuf, max);
            && rbuf == taken + rest && (take.Line? ==> IsLine(taken, take.line) && |take.line| <= max)
            && (take.TooLong? ==> if LF in rbuf then IsOverLong(taken, max) else taken == [] && |rbuf| > max)
            && (take.Need? ==> taken == [] && rest == rbuf)
  {
    taken := [];
    if NextLine(rbuf).Some? {
      taken := TakeNext(rbuf);
    }
  }

  ghost predicate IsTakenBlock(block: string, got: BodyPull, max: nat)
  {
    if got.Whole? then SplitBlock(block) == Some((got.raw, [])) && max > 0 else Unterminated(block, max)
  }

  function Judged(raw: seq<string>, max: nat): Option<seq<string>>
  {
    if BodySize(UnstuffAll(raw)) <= max then Some(UnstuffAll(raw)) else None
  }

  /** The lines of a body that was read hold no LF. */
  lemma {:induction false} BodyLinesAreLines(rbuf: string, chunks: seq<string>, max: nat)
    requires PullBody(rbuf, chunks, max).Whole?
    ensures LfFree(UnstuffAll(PullBody(rbuf, chunks, max).raw))
    decreases |Stream(rbuf, chunks)|
  {
    hide PullLine;
    var got := PullLine(rbuf, chunks, max);
    PullLineIsNextLine(rbuf, chunks, max);
    NextLineShrinks(Stream(rbuf, chunks));
    PullLineShrinks(rbuf, chunks, max);
    if got.line != TERMINATOR {
      BodyLinesAreLines(got.rbuf, got.chunks, max);
      UnstuffAllCons(got.line, PullBody(got.rbuf, got.chunks, max).raw);
    }
  }

  lemma PullStep(rbuf: string, chunks: seq<string>, max: nat)
    ensures var (take, rest) := TakeLine(rbuf, max);
            match take
            case Line(line) => PullLine(rbuf, chunks, max) == Complete(line, rest, chunks)
            case TooLong => PullLine(rbuf, chunks, max) == Over(rest, chunks)
            case Need =>
              && rest == rbuf
              && PullLine(rbuf, chunks, max)
                 == if chunks == [] then Ended(rbuf, []) else PullLine(rbuf + chunks[0], chunks[1..], max)
  {
  }

  lemma NothingBefore(got: BodyPull)
    ensures Before([], got) == got
  {
    if got.Whole? {
      assert [] + got.raw == got.raw;
    }
  }

  /** One line of a body, seen from the lines before it. */
  lemma BodyStep(raw: seq<string>, rbuf: string, chunks: seq<string>, max: nat)
    ensures var next, got := PullLine(rbuf, chunks, max), Before(raw, PullBody(rbuf, chunks, max));
            match next
            case Ended(r, c) => got == Eof(r, c)
            case Over(r, c) => got == OverLong(r, c)
            case Complete(line, r, c) =>
              got == if line == TERMINATOR then Whole(raw, r, c) else Before(raw + [line], PullBody(r, c, max))
  {
    hide PullLine;
    PullLineShrinks(rbuf, chunks, max);
    var next := PullLine(rbuf, chunks, max);
    assert raw + [] == raw;
    if next.Complete? {
      var more := PullBody(next.rbuf, next.chunks, max);
      if more.Whole? {
        assert raw + ([next.line] + more.raw) == raw + [next.line] + more.raw;
      }
    }
  }
}
