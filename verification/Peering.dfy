/** The federation wire format: FEED and RREG frames as bytes, and the reader that recovers them. */
module Peering {
  import opened Text
  import opened Messages
  import opened Ownership
  import opened Lines
  import opened Framing
  import opened Cluster

  // --- frames as bytes ----------------------------------------------------------------------------

  function FeedHeader(m: Message): string
  {
    "FEED" + [SP] + (m.typeName + [SP] + (m.msgId + [SP] + m.origin))
  }

  function RregLine(t: string, reg: TypeReg): string
  {
    "RREG" + [SP] + (t + [SP] + (reg.key + [SP] + (reg.origin + [SP] + Print(reg.ts, 10))))
  }

  function Serialize(f: Frame): string
  {
    match f
    case Feed(m) => FeedHeader(m) + CRLF + Block(m.body)
    case Rreg(t, reg) => RregLine(t, reg) + CRLF
  }

  function SerializeAll(fs: seq<Frame>): string
  {
    if fs == [] then [] else Serialize(fs[0]) + SerializeAll(fs[1..])
  }

  ghost predicate IsWellFormed(f: Frame)
  {
    match f
    case Feed(m) => IsField(m.typeName) && IsField(m.msgId) && IsField(m.origin) && LfFree(m.body)
    case Rreg(t, reg) => IsField(t) && IsField(reg.key) && IsField(reg.origin) && reg.ts < U64_LIMIT
  }

  // --- reading -------------------------------------------------------------------------------------

  /** `read_line`: at the end of the stream an unterminated rest still counts as a line. */
  function FedLine(s: string): Option<(string, string)>
  {
    if s == [] then None
    else match NextLine(s)
      case None => Some((StripCr(s), []))
      case Some(r) => Some(r)
  }

  lemma FedLineShrinks(s: string)
    ensures FedLine(s).Some? ==> |FedLine(s).value.1| < |s|
  {
  }

  function FedSplit(s: string): Option<(seq<string>, string)>
    decreases |s|
  {
    match FedLine(s)
    case None => None
    case Some((line, rest)) =>
      if line == TERMINATOR then Some(([], rest))
      else
        FedLineShrinks(s);
        match FedSplit(rest)
        case None => None
        case Some((raw, after)) => Some(([line] + raw, after))
  }

  datatype BodyRead = Eof | Body(lines: Option<seq<string>>, rest: string)

  /** The unstuffed lines if they fit in `max`, and in any case the stream after the terminator. */
  function FedBody(s: string, max: nat): BodyRead
  {
    match FedSplit(s)
    case None => Eof
    case Some((raw, rest)) =>
      Body(if BodySize(UnstuffAll(raw)) <= max then Some(UnstuffAll(raw)) else None, rest)
  }

  lemma {:induction false} FedSplitIsSplit(s: string)
    requires SplitBlock(s).Some?
    ensures FedSplit(s) == SplitBlock(s)
    decreases |s|
  {
    var (line, rest) := NextLine(s).value;
    if line != TERMINATOR {
      NextLineShrinks(s);
      FedSplitIsSplit(rest);
    }
  }

  lemma FedBodyShrinks(s: string, max: nat)
    ensures FedBody(s, max).Body? ==> |FedBody(s, max).rest| < |s|
  {
    FedSplitShrinks(s);
  }

  lemma {:induction false} FedSplitShrinks(s: string)
    ensures FedSplit(s).Some? ==> |FedSplit(s).value.1| < |s|
    decreases |s|
  {
    if s == [] {
    } else {
      FedLineShrinks(s);
      FedSplitShrinks(FedLine(s).value.1);
    }
  }

  function ParseFeed(args: string, body: Option<seq<string>>): Option<Frame>
  {
    var m := (Field(args, 0), Field(args, 1), Field(args, 2));
    if m.0 == [] || m.1 == [] || m.2 == [] || body.None? then None
    else Some(Feed(Message(m.0, m.1, m.2, body.value)))
  }

  function ParseRreg(args: string): Option<Frame>
  {
    var t, key, origin := Field(args, 0), Field(args, 1), Field(args, 2);
    match ParseUnsigned(Field(args, 3), U64_LIMIT)
    case None => None
    case Some(ts) =>
      if t == [] || key == [] || origin == [] then None else Some(Rreg(t, TypeReg(key, origin, ts)))
  }

  function Listed(f: Option<Frame>): seq<Frame>
  {
    match f
    case None => []
    case Some(g) => [g]
  }

  /** One turn of the reader: the frame it applies, if any, and where it continues. */
  datatype Turn = Stop | Go(frame: Option<Frame>, rest: string)

  function ReadTurn(s: string, max: nat): Turn
  {
    match FedLine(s)
    case None => Stop
    case Some((line, rest)) =>
      var (verb, tail) := Cut(line);
      var args := if tail.Some? then tail.value else [];
      if verb == "FEED" then
        match FedBody(rest, max)
        case Eof => Stop
        case Body(lines, after) => Go(ParseFeed(args, lines), after)
      else if verb == "RREG" then Go(ParseRreg(args), rest)
      else Go(None, rest)
  }

  lemma ReadTurnShrinks(s: string, max: nat)
    ensures ReadTurn(s, max).Go? ==> |ReadTurn(s, max).rest| < |s|
  {
    if s != [] {
      FedLineShrinks(s);
      FedBodyShrinks(FedLine(s).value.1, max);
    }
  }

  /** The frames that `read_loop` applies, in order, until the stream ends. */
  function FramesOf(s: string, max: nat): seq<Frame>
    decreases |s|
  {
    ReadTurnShrinks(s, max);
    match ReadTurn(s, max)
    case Stop => []
    case Go(f, rest) => Listed(f) + FramesOf(rest, max)
  }

  // --- what is written is what is read ---------------------------------------------------------------

  /** Frames whose body fits the reader's limit. */
  function Fitting(fs: seq<Frame>, max: nat): seq<Frame>
  {
    if fs == [] then [] else IfFits(fs[0], max) + Fitting(fs[1..], max)
  }

  function IfFits(f: Frame, max: nat): seq<Frame>
  {
    if f.Feed? && BodySize(f.msg.body) > max then [] else [f]
  }

  lemma FeedHeaderFields(m: Message)
    requires IsField(m.typeName) && IsField(m.msgId) && IsField(m.origin)
    ensures LF !in FeedHeader(m) && Cut(FeedHeader(m)).0 == "FEED" && Cut(FeedHeader(m)).1.Some?
    ensures forall lines :: ParseFeed(Cut(FeedHeader(m)).1.value, Some(lines)) == Some(Feed(m.(body := lines)))
    ensures ParseFeed(Cut(FeedHeader(m)).1.value, None) == None
  {
    var a1 := m.msgId + [SP] + m.origin;
    var a0 := m.typeName + [SP] + a1;
    CutAt("FEED", a0);
    FieldAt(m.typeName, a1, 0);
    FieldAt(m.typeName, a1, 1);
    FieldAt(m.msgId, m.origin, 0);
    FieldAt(m.origin, [], 0);
  }

  lemma RregFields(a: string, b: string, c: string, d: string)
    requires SP !in a && SP !in b && SP !in c && SP !in d
    ensures var s := a + [SP] + (b + [SP] + (c + [SP] + d));
            Field(s, 0) == a && Field(s, 1) == b && Field(s, 2) == c && Field(s, 3) == d
  {
    var s2 := c + [SP] + d;
    var s1 := b + [SP] + s2;
    FieldAt(a, s1, 0);
    FieldAt(a, s1, 1);
    FieldAt(a, s1, 2);
    FieldAt(b, s2, 0);
    FieldAt(b, s2, 1);
    FieldAt(c, d, 0);
    FieldAt(d, [], 0);
  }

  lemma RregLineFields(t: string, reg: TypeReg)
    requires IsWellFormed(Rreg(t, reg))
    ensures LF !in RregLine(t, reg) && Cut(RregLine(t, reg)).0 == "RREG" && Cut(RregLine(t, reg)).1.Some?
    ensures ParseRreg(Cut(RregLine(t, reg)).1.value) == Some(Rreg(t, reg))
  {
    var ts := Print(reg.ts, 10);
    ParsePrinted(reg.ts, U64_LIMIT);
    RregFields(t, reg.key, reg.origin, ts);
    CutAt("RREG", t + [SP] + (reg.key + [SP] + (reg.origin + [SP] + ts)));
  }

  /** A complete LF-terminated line is what the peer reads. */
  lemma FedLineOf(line: string, rest: string)
    requires LF !in line
    ensures FedLine(line + CRLF + rest) == Some((line, rest))
  {
    LineRoundTrip(line, rest);
  }

  lemma FedBodyOf(body: seq<string>, rest: string, max: nat)
    requires LfFree(body)
    ensures FedBody(Block(body) + rest, max) == Body(if BodySize(body) <= max then Some(body) else None, rest)
  {
    BlockRoundTrip(body, rest);
    FedSplitIsSplit(Block(body) + rest);
  }

  lemma FeedTurn(m: Message, rest: string, max: nat)
    requires IsWellFormed(Feed(m))
    ensures ReadTurn(Serialize(Feed(m)) + rest, max)
         == Go(if BodySize(m.body) <= max then Some(Feed(m)) else None, rest)
  {
    hide Cut, FedLine, FedBody, ParseFeed, ParseRreg, FeedHeader;
    var tail := Block(m.body) + rest;
    FeedHeaderFields(m);
    assert FeedHeader(m) + CRLF + tail == Serialize(Feed(m)) + rest;
    FedLineOf(FeedHeader(m), tail);
    FedBodyOf(m.body, rest, max);
    assert m.(body := m.body) == m;
  }

  lemma RregTurn(t: string, reg: TypeReg, rest: string, max: nat)
    requires IsWellFormed(Rreg(t, reg))
    ensures ReadTurn(Serialize(Rreg(t, reg)) + rest, max) == Go(Some(Rreg(t, reg)), rest)
  {
    hide Cut, FedLine, FedBody, ParseFeed, ParseRreg, RregLine;
    RregLineFields(t, reg);
    FedLineOf(RregLine(t, reg), rest);
  }

  lemma OneFrame(f: Frame, rest: string, max: nat)
    requires IsWellFormed(f)
    ensures FramesOf(Serialize(f) + rest, max) == IfFits(f, max) + FramesOf(rest, max)
  {
    hide Serialize, IsWellFormed, ReadTurn;
    match f
    case Rreg(t, reg) => RregTurn(t, reg, rest, max);
    case Feed(m) => FeedTurn(m, rest, max);
  }

  lemma NoFrames(max: nat)
    ensures FramesOf([], max) == []
  {
  }

  /** Writing any list of well-formed frames and reading the stream back yields exactly the
      frames that fit the reader's limit, in order: no body line is taken for a frame. */
  lemma {:induction false} FrameStreamRoundTrip(fs: seq<Frame>, max: nat)
    requires forall f :: f in fs ==> IsWellFormed(f)
    ensures FramesOf(SerializeAll(fs), max) == Fitting(fs, max)
  {
    hide Serialize, IsWellFormed, FramesOf;
    if fs == [] {
      NoFrames(max);
    } else {
      OneFrame(fs[0], SerializeAll(fs[1..]), max);
      FrameStreamRoundTrip(fs[1..], max);
    }
  }

  // --- what is read is well-formed ----------------------------------------------------------------------

  lemma {:induction false} FieldIsClean(s: string, i: nat)
    requires LF !in s
    ensures SP !in Field(s, i) && LF !in Field(s, i)
    decreases i
  {
    CutParts(s);
    var (head, tail) := Cut(s);
    assert forall c :: c in head ==> c in s;
    if i > 0 && tail.Some? {
      assert forall c :: c in tail.value ==> c in s;
      FieldIsClean(tail.value, i - 1);
    }
  }

  lemma {:induction false} FedLinesAreLines(s: string)
    requires FedSplit(s).Some?
    ensures LfFree(UnstuffAll(FedSplit(s).value.0))
    decreases |s|
  {
    var (line, rest) := FedLine(s).value;
    FedLineIsLine(s);
    FedLineShrinks(s);
    if line != TERMINATOR {
      FedLinesAreLines(rest);
      UnstuffAllCons(line, FedSplit(rest).value.0);
    }
  }

  lemma FedLineIsLine(s: string)
    requires FedLine(s).Some?
    ensures LF !in FedLine(s).value.0
  {
    NextLineShrinks(s);
  }

  lemma TurnIsWellFormed(s: string, max: nat)
    ensures ReadTurn(s, max).Go? && ReadTurn(s, max).frame.Some? ==> IsWellFormed(ReadTurn(s, max).frame.value)
  {
    hide FedLine, FedSplit, Field, Cut, Value;
    if FedLine(s).Some? {
      var (line, rest) := FedLine(s).value;
      FedLineIsLine(s);
      CutParts(line);
      var tail := Cut(line).1;
      var args := if tail.Some? then tail.value else [];
      assert forall c :: c in args ==> c in line;
      FieldIsClean(args, 0);
      FieldIsClean(args, 1);
      FieldIsClean(args, 2);
      if FedSplit(rest).Some? {
        FedLinesAreLines(rest);
      }
    }
  }

  /** Whatever octets arrive, every frame the reader applies is well-formed. */
  lemma {:induction false} ReadIsWellFormed(s: string, max: nat)
    ensures forall f :: f in FramesOf(s, max) ==> IsWellFormed(f)
    decreases |s|
  {
    hide ReadTurn, IsWellFormed;
    TurnIsWellFormed(s, max);
    ReadTurnShrinks(s, max);
    if ReadTurn(s, max).Go? {
      ReadIsWellFormed(ReadTurn(s, max).rest, max);
    }
  }

  // --- exactly which lines are frames -------------------------------------------------------------------

  /** A line that is neither a FEED nor an RREG is skipped. */
  lemma OtherLinesAreSkipped(line: string, rest: string, max: nat)
    requires LF !in line && Cut(line).0 != "FEED" && Cut(line).0 != "RREG"
    ensures FramesOf(line + CRLF + rest, max) == FramesOf(rest, max)
  {
    hide Cut, FedLine;
    FedLineOf(line, rest);
    assert Listed(None) + FramesOf(rest, max) == FramesOf(rest, max);
  }

  /** Four fields, separated by single spaces; what follows a further space is ignored. */
  predicate IsRregArgs(args: string, t: string, key: string, origin: string, num: string, more: string)
  {
    && SP !in t && SP !in key && SP !in origin && SP !in num && (more == [] || more[0] == SP)
    && args == t + [SP] + (key + [SP] + (origin + [SP] + (num + more)))
  }

  lemma FieldThen(a: string, more: string)
    requires SP !in a && (more == [] || more[0] == SP)
    ensures Field(a + more, 0) == a
  {
    if more == [] {
      assert a + more == a;
      FieldAt(a, [], 0);
    } else {
      assert a + more == a + [SP] + more[1..];
      FieldAt(a, more[1..], 0);
    }
  }

  lemma ArgsHaveFields(args: string, t: string, key: string, origin: string, num: string, more: string)
    requires IsRregArgs(args, t, key, origin, num, more)
    ensures Field(args, 0) == t && Field(args, 1) == key && Field(args, 2) == origin && Field(args, 3) == num
  {
    hide Field;
    var s3 := num + more;
    var s2 := origin + [SP] + s3;
    var s1 := key + [SP] + s2;
    FieldAt(t, s1, 0);
    FieldAt(t, s1, 1);
    FieldAt(t, s1, 2);
    FieldAt(key, s2, 0);
    FieldAt(key, s2, 1);
    FieldAt(origin, s3, 0);
    FieldThen(num, more);
  }

  /** The first field and, if there is one, the rest after its space. */
  lemma FieldSplits(s: string) returns (tail: Option<string>)
    ensures SP !in Field(s, 0) && s == Field(s, 0) + if tail.None? then [] else [SP] + tail.value
    ensures tail.None? ==> forall i: nat :: i > 0 ==> Field(s, i) == []
    ensures tail.Some? ==> forall i: nat :: i > 0 ==> Field(s, i) == Field(tail.value, i - 1)
  {
    hide Cut;
    CutParts(s);
    tail := Cut(s).1;
  }

  lemma FieldsMakeArgs(args: string) returns (more: string)
    requires Field(args, 3) != []
    ensures IsRregArgs(args, Field(args, 0), Field(args, 1), Field(args, 2), Field(args, 3), more)
  {
    hide Field;
    var s1 := FieldSplits(args);
    var s2 := FieldSplits(s1.value);
    var s3 := FieldSplits(s2.value);
    var s4 := FieldSplits(s3.value);
    more := if s4.None? then [] else [SP] + s4.value;
    assert Field(args, 1) == Field(s1.value, 0) && Field(args, 2) == Field(s1.value, 1) == Field(s2.value, 0);
    assert Field(args, 3) == Field(s1.value, 2) == Field(s2.value, 1) == Field(s3.value, 0);
  }

  /** An RREG is a record exactly if it has a type, a key and an origin and its fourth field is a number below
      2^64; then the record is these. */
  lemma ParseRregIff(args: string, t: string, reg: TypeReg)
    ensures ParseRreg(args) == Some(Rreg(t, reg))
       <==> && t != [] && reg.key != [] && reg.origin != [] && reg.ts < 18446744073709551616
            && exists num, more :: IsRregArgs(args, t, reg.key, reg.origin, num, more) && Denotes(num, reg.ts)
  {
    hide Field, ParseUnsigned, Denotes, IsRregArgs;
    ParseUnsignedIff(Field(args, 3), U64_LIMIT, reg.ts);
    if ParseRreg(args) == Some(Rreg(t, reg)) {
      NothingDenotesNothing(reg.ts);
      var more := FieldsMakeArgs(args);
    }
    if num, more :| IsRregArgs(args, t, reg.key, reg.origin, num, more) && Denotes(num, reg.ts) {
      ArgsHaveFields(args, t, reg.key, reg.origin, num, more);
    }
  }

  lemma NothingDenotesNothing(n: nat)
    ensures !Denotes([], n)
  {
  }

  predicate IsFeedArgs(args: string, t: string, id: string, origin: string, more: string)
  {
    && SP !in t && SP !in id && SP !in origin && (more == [] || more[0] == SP)
    && args == t + [SP] + (id + [SP] + (origin + more))
  }

  lemma FeedArgsHaveFields(args: string, t: string, id: string, origin: string, more: string)
    requires IsFeedArgs(args, t, id, origin, more)
    ensures Field(args, 0) == t && Field(args, 1) == id && Field(args, 2) == origin
  {
    hide Field;
    var s2 := origin + more;
    var s1 := id + [SP] + s2;
    FieldAt(t, s1, 0);
    FieldAt(t, s1, 1);
    FieldAt(id, s2, 0);
    FieldThen(origin, more);
  }

  lemma FieldsMakeFeedArgs(args: string) returns (more: string)
    requires Field(args, 2) != []
    ensures IsFeedArgs(args, Field(args, 0), Field(args, 1), Field(args, 2), more)
  {
    hide Field;
    var s1 := FieldSplits(args);
    var s2 := FieldSplits(s1.value);
    var s3 := FieldSplits(s2.value);
    more := if s3.None? then [] else [SP] + s3.value;
    assert Field(args, 1) == Field(s1.value, 0) && Field(args, 2) == Field(s1.value, 1) == Field(s2.value, 0);
  }

  /** A FEED is a message exactly if it has a type, an id and an origin and its body fits; then the message is
      these. */
  lemma ParseFeedIff(args: string, body: Option<seq<string>>, m: Message)
    ensures ParseFeed(args, body) == Some(Feed(m))
       <==> && m.typeName != [] && m.msgId != [] && m.origin != [] && body == Some(m.body)
            && exists more :: IsFeedArgs(args, m.typeName, m.msgId, m.origin, more)
  {
    hide Field, IsFeedArgs;
    if ParseFeed(args, body) == Some(Feed(m)) {
      var more := FieldsMakeFeedArgs(args);
    }
    if more :| IsFeedArgs(args, m.typeName, m.msgId, m.origin, more) {
      FeedArgsHaveFields(args, m.typeName, m.msgId, m.origin, more);
    }
  }

  /** Whatever a FEED line's arguments are, the block after it is its body and reading goes on behind that. */
  lemma FeedTakesItsBody(line: string, body: seq<string>, rest: string, max: nat)
    requires LF !in line && Cut(line).0 == "FEED" && LfFree(body)
    ensures FramesOf(line + CRLF + Block(body) + rest, max)
         == Listed(ParseFeed(if Cut(line).1.Some? then Cut(line).1.value else [],
                             if BodySize(body) <= max then Some(body) else None))
            + FramesOf(rest, max)
  {
    hide Cut, FedLine, FedBody, ParseFeed;
    assert line + CRLF + Block(body) + rest == line + CRLF + (Block(body) + rest);
    FedLineOf(line, Block(body) + rest);
    FedBodyOf(body, rest, max);
  }
}
