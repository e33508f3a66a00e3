/** A peer stream that ends anywhere: what the reader makes of every prefix of what was written.  Since an
    unterminated rest counts as a line, a cut inside a frame is not always harmless. */
module Torn {
  import opened Text
  import opened Messages
  import opened Ownership
  import opened Lines
  import opened Framing
  import opened Cluster
  import opened Peering

  // --- one last line -------------------------------------------------------------------------------

  /** What is left of the stream holds no LF: it is read as one line, less a trailing CR. */
  lemma LastLine(s: string)
    requires s != [] && LF !in s
    ensures FedLine(s) == Some((StripCr(s), []))
  {
  }

  lemma OneTurn(s: string, f: Option<Frame>, max: nat)
    requires ReadTurn(s, max) == Go(f, [])
    ensures FramesOf(s, max) == Listed(f)
  {
    NoFrames(max);
    assert Listed(f) + [] == Listed(f);
  }

  lemma StripCrIsPrefix(s: string)
    ensures StripCr(s) <= s
  {
  }

  /** Where a prefix of `a SP rest` is cut at its first space. */
  lemma CutPrefix(a: string, rest: string, p: string)
    requires SP !in a && p <= a + [SP] + rest
    ensures |p| <= |a| ==> p <= a && Cut(p) == (p, None)
    ensures |p| > |a| ==> p[|a| + 1..] <= rest && Cut(p) == (a, Some(p[|a| + 1..]))
  {
    hide Cut;
    if |p| <= |a| {
      assert p == a[..|p|];
      CutAt(p, []);
    } else {
      assert p == a + [SP] + p[|a| + 1..];
      CutAt(a, p[|a| + 1..]);
    }
  }

  lemma FieldPrefix(a: string, rest: string, p: string, i: nat)
    requires SP !in a && p <= a + [SP] + rest
    ensures |p| <= |a| ==> Field(p, i + 1) == []
    ensures |p| > |a| ==> p[|a| + 1..] <= rest && Field(p, i + 1) == Field(p[|a| + 1..], i)
  {
    CutPrefix(a, rest, p);
  }

  /** With no digit of its timestamp a record cannot be parsed. */
  lemma NoFourthField(a: string, b: string, c: string, p: string)
    requires SP !in a && SP !in b && SP !in c
    requires p <= a + [SP] + (b + [SP] + (c + [SP] + []))
    ensures Field(p, 3) == []
  {
    hide Field, Cut;
    FieldPrefix(a, b + [SP] + (c + [SP] + []), p, 2);
    if |p| > |a| {
      var q := p[|a| + 1..];
      FieldPrefix(b, c + [SP] + [], q, 1);
      if |q| > |b| {
        FieldPrefix(c, [], q[|b| + 1..], 0);
        NothingHasNoField(q[|b| + 1..], |c|);
      }
    }
  }

  lemma NothingHasNoField(p: string, n: nat)
    ensures |p| > n && p[n + 1..] == [] ==> Field(p[n + 1..], 0) == []
  {
  }

  // --- a record cut short ------------------------------------------------------------------------------

  /** Everything before the timestamp. */
  function RregHead(t: string, reg: TypeReg): string
  {
    "RREG" + [SP] + (t + [SP] + (reg.key + [SP] + (reg.origin + [SP] + [])))
  }

  lemma RregSplits(t: string, reg: TypeReg)
    ensures RregLine(t, reg) == RregHead(t, reg) + Print(reg.ts, 10)
  {
    var ts := Print(reg.ts, 10);
    var o, o' := reg.origin + [SP] + [], reg.origin + [SP] + ts;
    assert o' == o + ts;
    var k, k' := reg.key + [SP] + o, reg.key + [SP] + o';
    assert k' == k + ts;
    var x, x' := t + [SP] + k, t + [SP] + k';
    assert x' == x + ts;
  }

  lemma TornHead(t: string, reg: TypeReg, n: nat, max: nat)
    requires IsWellFormed(Rreg(t, reg)) && n <= |RregHead(t, reg)|
    ensures FramesOf(RregHead(t, reg)[..n], max) == []
  {
    var torn := RregHead(t, reg)[..n];
    if n == 0 {
      NoFrames(max);
    } else {
      hide FramesOf, Cut, ParseRreg, FedBody, RregHead;
      HeadHasNoLf(t, reg);
      LastLine(torn);
      StripCrIsPrefix(torn);
      HeadIsNoFrame(t, reg, StripCr(torn));
      HeadTurn(torn, max);
      OneTurn(torn, None, max);
    }
  }

  lemma HeadHasNoLf(t: string, reg: TypeReg)
    requires IsWellFormed(Rreg(t, reg))
    ensures LF !in RregHead(t, reg)
  {
  }

  /** A verb that is neither FEED nor a complete RREG applies nothing. */
  ghost predicate AppliesNothing(line: string)
  {
    var (verb, tail) := Cut(line);
    verb != "FEED" && (verb == "RREG" ==> ParseRreg(if tail.Some? then tail.value else []) == None)
  }

  lemma HeadTurn(s: string, max: nat)
    requires FedLine(s) == Some((StripCr(s), [])) && AppliesNothing(StripCr(s))
    ensures ReadTurn(s, max) == Go(None, [])
  {
  }

  lemma HeadIsNoFrame(t: string, reg: TypeReg, p: string)
    requires IsWellFormed(Rreg(t, reg)) && p <= RregHead(t, reg)
    ensures AppliesNothing(p)
  {
    hide Cut, Field;
    var rest := t + [SP] + (reg.key + [SP] + (reg.origin + [SP] + []));
    CutPrefix("RREG", rest, p);
    if |p| > 4 {
      NoFourthField(t, reg.key, reg.origin, p[5..]);
      NoTimestamp(p[5..]);
    } else {
      NotFeed(p);
      NoFields();
      NoTimestamp([]);
    }
  }

  lemma NotFeed(p: string)
    requires p <= "RREG"
    ensures p != "FEED"
  {
    assert p != [] ==> p[0] == 'R';
    assert "FEED"[0] == 'F';
  }

  lemma NoFields()
    ensures Field([], 3) == []
  {
  }

  lemma NoTimestamp(args: string)
    requires Field(args, 3) == []
    ensures ParseRreg(args) == None
  {
  }

  /** `n` without its last `drop` decimal digits. */
  function Lead(n: nat, drop: nat): (r: nat)
    ensures r <= n && (drop > 0 && n >= 10 ==> r < n)
    decreases drop
  {
    if drop == 0 then n
    else
      DivideByBase(n, 10);
      if n < 10 then 0 else Lead(n / 10, drop - 1)
  }

  lemma {:induction false} PrintLead(n: nat, drop: nat)
    requires drop < |Print(n, 10)|
    ensures Print(n, 10)[..|Print(n, 10)| - drop] == Print(Lead(n, drop), 10)
    ensures drop > 0 ==> Lead(n, drop) < n
    decreases drop
  {
    var s := Print(n, 10);
    if drop == 0 {
      assert s[..|s|] == s;
    } else {
      DivideByBase(n, 10);
      var high := Print(n / 10, 10);
      assert s == high + [DIGITS[..10][n % 10]];
      PrintLead(n / 10, drop - 1);
      assert s[..|s| - drop] == high[..|high| - (drop - 1)];
    }
  }

  /** A cut inside the timestamp applies the record with the digits that arrived. */
  lemma TornDigits(t: string, reg: TypeReg, drop: nat, max: nat)
    requires IsWellFormed(Rreg(t, reg)) && drop < |Print(reg.ts, 10)|
    ensures var line := RregLine(t, reg);
            FramesOf(line[..|line| - drop], max) == [Rreg(t, reg.(ts := Lead(reg.ts, drop)))]
  {
    hide FramesOf, Cut, ParseRreg, RregLine, RregHead, Print;
    var less := reg.(ts := Lead(reg.ts, drop));
    var line := RregLine(t, reg);
    RregSplits(t, reg);
    RregSplits(t, less);
    SameHead(t, reg, less);
    PrintLead(reg.ts, drop);
    assert line[..|line| - drop] == RregLine(t, less);
    RregLineFields(t, less);
    LastIsDigit(t, less);
    LastLine(RregLine(t, less));
    RregRead(RregLine(t, less), t, less, max);
    OneTurn(RregLine(t, less), Some(Rreg(t, less)), max);
  }

  lemma SameHead(t: string, a: TypeReg, b: TypeReg)
    requires a.key == b.key && a.origin == b.origin
    ensures RregHead(t, a) == RregHead(t, b)
  {
  }

  lemma LastIsDigit(t: string, reg: TypeReg)
    ensures RregLine(t, reg) != [] && StripCr(RregLine(t, reg)) == RregLine(t, reg)
  {
    hide Print;
    RregSplits(t, reg);
    var s := Print(reg.ts, 10);
    assert s[|s| - 1] in s && CR !in DIGITS[..10];
  }

  lemma RregRead(s: string, t: string, reg: TypeReg, max: nat)
    requires FedLine(s) == Some((RregLine(t, reg), []))
    requires Cut(RregLine(t, reg)).0 == "RREG" && Cut(RregLine(t, reg)).1.Some?
    requires ParseRreg(Cut(RregLine(t, reg)).1.value) == Some(Rreg(t, reg))
    ensures ReadTurn(s, max) == Go(Some(Rreg(t, reg)), [])
  {
  }

  /** A record without its LF is complete. */
  lemma TornEnd(t: string, reg: TypeReg, max: nat)
    requires IsWellFormed(Rreg(t, reg))
    ensures FramesOf(RregLine(t, reg) + [CR], max) == [Rreg(t, reg)]
  {
    hide FramesOf, Cut, ParseRreg, RregLine;
    var s := RregLine(t, reg) + [CR];
    RregLineFields(t, reg);
    LastLine(s);
    assert StripCr(s) == RregLine(t, reg);
    RregRead(s, t, reg, max);
    OneTurn(s, Some(Rreg(t, reg)), max);
  }

  // --- a body cut short ------------------------------------------------------------------------------------

  /** The lines that a block cut after `k` octets yields: those before the cut, if it leaves a lone dot. */
  function KeptAt(body: seq<string>, k: nat): Option<seq<string>>
  {
    if body == [] then if k == 0 then None else Some([])
    else
      var line := StuffLine(body[0]);
      if k >= |line| + 2 then
        match KeptAt(body[1..], k - |line| - 2)
        case None => None
        case Some(kept) => Some([body[0]] + kept)
      else if k == 1 && line != [] && line[0] == '.' then Some([])
      else None
  }

  lemma CutLineSplits(line: string, k: nat)
    requires LF !in line && k < |StuffLine(line)| + 2
    ensures var s := (StuffLine(line) + CRLF)[..k];
            FedSplit(s) == if k == 1 && StuffLine(line) != [] && StuffLine(line)[0] == '.' then Some(([], [])) else None
  {
    var s := (StuffLine(line) + CRLF)[..k];
    assert forall i :: 0 <= i < k ==> s[i] == (StuffLine(line) + [CR])[i];
    if k > 0 {
      LastLine(s);
      assert FedSplit([]) == None;
    }
  }

  lemma {:induction false} TornBlock(body: seq<string>, k: nat)
    requires LfFree(body) && k < |Block(body)|
    ensures var split := FedSplit(Block(body)[..k]);
            match KeptAt(body, k)
            case None => split == None
            case Some(kept) => split.Some? && UnstuffAll(split.value.0) == kept && split.value.1 == []
  {
    hide FedSplit, StuffLine;
    if body == [] {
      CutTerminator(k);
    } else {
      var line, tail := StuffLine(body[0]) + CRLF, Block(body[1..]);
      assert Block(body) == line + tail;
      TakeOfConcat(line, tail, k);
      if k >= |line| {
        TornBlock(body[1..], k - |line|);
        SplitAfterLine(body[0], tail[..k - |line|]);
      } else {
        CutLineSplits(body[0], k);
        assert UnstuffAll([]) == [];
      }
    }
  }

  lemma TakeOfConcat<T>(a: seq<T>, b: seq<T>, k: nat)
    requires k <= |a| + |b|
    ensures (a + b)[..k] == if k >= |a| then a + b[..k - |a|] else a[..k]
  {
  }

  /** A whole line before a torn block is a line before what that block yields. */
  lemma SplitAfterLine(line: string, rest: string)
    requires LF !in line
    ensures var split, whole := FedSplit(rest), FedSplit(StuffLine(line) + CRLF + rest);
            match split
            case None => whole == None
            case Some((raw, after)) =>
              whole.Some? && UnstuffAll(whole.value.0) == [line] + UnstuffAll(raw) && whole.value.1 == after
  {
    hide UnstuffAll, FedSplit;
    var stuffed := StuffLine(line);
    StuffRoundTrip(line);
    FedLineOf(stuffed, rest);
    SplitStep(stuffed + CRLF + rest, stuffed, rest);
    if FedSplit(rest).Some? {
      UnstuffAllCons(stuffed, FedSplit(rest).value.0);
    }
  }

  lemma CutTerminator(k: nat)
    requires k < 3
    ensures FedSplit((TERMINATOR + CRLF)[..k]) == if k == 0 then None else Some(([], []))
    ensures UnstuffAll([]) == [] && Block([]) == TERMINATOR + CRLF
  {
    var s := (TERMINATOR + CRLF)[..k];
    assert k == 1 ==> s == ['.'];
    assert k == 2 ==> s == ['.', CR];
    if k > 0 {
      LastLine(s);
    }
  }

  lemma SplitStep(s: string, line: string, rest: string)
    requires FedLine(s) == Some((line, rest)) && line != TERMINATOR
    ensures FedSplit(s) == match FedSplit(rest)
                           case None => None
                           case Some((raw, after)) => Some(([line] + raw, after))
  {
  }

  /** Before the LF of its header a message leaves no trace. */
  lemma TornHeader(m: Message, n: nat, max: nat)
    requires IsWellFormed(Feed(m)) && n <= |FeedHeader(m)| + 1
    ensures FramesOf((FeedHeader(m) + [CR])[..n], max) == []
  {
    var torn := (FeedHeader(m) + [CR])[..n];
    if n == 0 {
      NoFrames(max);
    } else {
      hide FramesOf, Cut, FedBody, ParseRreg, FeedHeader;
      FeedHeaderFields(m);
      assert forall i :: 0 <= i < n ==> torn[i] == (FeedHeader(m) + [CR])[i];
      LastLine(torn);
      var line := StripCr(torn);
      assert line <= FeedHeader(m);
      HeaderVerb(m, line);
      HeaderTurn(torn, line, max);
      if ReadTurn(torn, max).Go? {
        OneTurn(torn, None, max);
      } else {
        Stopped(torn, max);
      }
    }
  }

  lemma Stopped(s: string, max: nat)
    requires ReadTurn(s, max) == Stop
    ensures FramesOf(s, max) == []
  {
  }

  lemma HeaderVerb(m: Message, line: string)
    requires line <= FeedHeader(m)
    ensures Cut(line).0 != "RREG"
  {
    CutPrefix("FEED", m.typeName + [SP] + (m.msgId + [SP] + m.origin), line);
    assert |Cut(line).0| > 0 ==> Cut(line).0[0] == 'F';
  }

  lemma HeaderTurn(s: string, line: string, max: nat)
    requires FedLine(s) == Some((line, [])) && Cut(line).0 != "RREG"
    ensures ReadTurn(s, max) == Stop || ReadTurn(s, max) == Go(None, [])
  {
    assert FedSplit([]) == None;
  }

  lemma TornBody(m: Message, k: nat, max: nat)
    requires IsWellFormed(Feed(m)) && k < |Block(m.body)|
    ensures FramesOf(FeedHeader(m) + CRLF + Block(m.body)[..k], max)
         == match KeptAt(m.body, k) case None => [] case Some(kept) => IfFits(Feed(m.(body := kept)), max)
  {
    hide FramesOf, FedLine, Cut, ParseFeed, FeedHeader, FedSplit, KeptAt, Block;
    var cut := Block(m.body)[..k];
    var torn := FeedHeader(m) + CRLF + cut;
    TornBlock(m.body, k);
    FeedHeaderFields(m);
    FedLineOf(FeedHeader(m), cut);
    match KeptAt(m.body, k)
    case None => Stopped(torn, max);
    case Some(kept) =>
      OneTurn(torn, if BodySize(kept) <= max then Some(Feed(m.(body := kept))) else None, max);
  }

  // --- every cut of a frame ------------------------------------------------------------------------------------

  /** What the reader makes of the first `n` octets of a frame and no more. */
  function TornAt(f: Frame, n: nat, max: nat): seq<Frame>
  {
    match f
    case Rreg(t, reg) =>
      if n <= |RregHead(t, reg)| then []
      else if n < |RregLine(t, reg)| then [Rreg(t, reg.(ts := Lead(reg.ts, |RregLine(t, reg)| - n)))]
      else [f]
    case Feed(m) =>
      if n < |FeedHeader(m)| + 2 then []
      else match KeptAt(m.body, n - |FeedHeader(m)| - 2)
        case None => []
        case Some(kept) => IfFits(Feed(m.(body := kept)), max)
  }

  lemma TornRreg(t: string, reg: TypeReg, n: nat, max: nat)
    requires IsWellFormed(Rreg(t, reg)) && n < |Serialize(Rreg(t, reg))|
    ensures FramesOf(Serialize(Rreg(t, reg))[..n], max) == TornAt(Rreg(t, reg), n, max)
  {
    hide FramesOf, RregLine, RregHead, Print, IsWellFormed;
    var line, head := RregLine(t, reg), RregHead(t, reg);
    var torn := Serialize(Rreg(t, reg))[..n];
    RregSplits(t, reg);
    if n <= |head| {
      assert torn == head[..n];
      TornHead(t, reg, n, max);
    } else if n <= |line| {
      assert torn == line[..|line| - (|line| - n)];
      TornDigits(t, reg, |line| - n, max);
    } else {
      assert torn == line + [CR];
      TornEnd(t, reg, max);
    }
  }

  lemma TornFeed(m: Message, n: nat, max: nat)
    requires IsWellFormed(Feed(m)) && n < |Serialize(Feed(m))|
    ensures FramesOf(Serialize(Feed(m))[..n], max) == TornAt(Feed(m), n, max)
  {
    hide FramesOf, FeedHeader, Block, KeptAt, IsWellFormed;
    var head := FeedHeader(m);
    var torn := Serialize(Feed(m))[..n];
    if n < |head| + 2 {
      assert torn == (head + [CR])[..n];
      TornHeader(m, n, max);
    } else {
      assert torn == head + CRLF + Block(m.body)[..n - |head| - 2];
      TornBody(m, n - |head| - 2, max);
    }
  }

  /** For every well-formed frame and every proper prefix of it. */
  lemma TornFrame(f: Frame, n: nat, max: nat)
    requires IsWellFormed(f) && n < |Serialize(f)|
    ensures FramesOf(Serialize(f)[..n], max) == TornAt(f, n, max)
  {
    hide FramesOf, Serialize, TornAt, IsWellFormed;
    match f
    case Rreg(t, reg) => TornRreg(t, reg, n, max);
    case Feed(m) => TornFeed(m, n, max);
  }

  // --- which cuts are harmless ---------------------------------------------------------------------------------

  /** Where line `i` of a body starts in its block. */
  function Offset(body: seq<string>, i: nat): nat
    requires i <= |body|
  {
    if i == 0 then 0 else |StuffLine(body[0])| + 2 + Offset(body[1..], i - 1)
  }

  /** A cut right after the stuffing dot of line `i`. */
  predicate AfterDot(body: seq<string>, k: int, i: nat)
  {
    i < |body| && body[i] != [] && body[i][0] == '.' && k == Offset(body, i) + 1
  }

  /** A cut strictly inside the timestamp of a record, or right after the stuffing dot of a body line
      whose preceding lines fit the reader's limit. */
  ghost predicate BadCut(f: Frame, n: nat, max: nat)
  {
    match f
    case Rreg(t, reg) => |RregHead(t, reg)| < n < |RregLine(t, reg)|
    case Feed(m) => exists i: nat :: AfterDot(m.body, n - |FeedHeader(m)| - 2, i) && BodySize(m.body[..i]) <= max
  }

  /** All of the frame but its last CRLF is there. */
  predicate Arrived(f: Frame, n: nat)
  {
    n + 2 >= |Serialize(f)|
  }

  lemma {:induction false} KeptBeforeDot(body: seq<string>, k: nat, i: nat)
    requires AfterDot(body, k, i)
    ensures KeptAt(body, k) == Some(body[..i])
    decreases i
  {
    if i > 0 {
      hide StuffLine;
      KeptBeforeDot(body[1..], k - |StuffLine(body[0])| - 2, i - 1);
      assert [body[0]] + body[1..][..i - 1] == body[..i];
    } else {
      assert body[..0] == [];
    }
  }

  /** A block is cut to a complete one only after its terminator or after a stuffing dot. */
  lemma {:induction false} KeptIs(body: seq<string>, k: nat) returns (i: nat)
    requires KeptAt(body, k).Some? && k < |Block(body)|
    ensures i <= |body| && KeptAt(body, k).value == body[..i]
    ensures if i == |body| then k + 2 >= |Block(body)| else AfterDot(body, k, i)
  {
    i := 0;
    hide StuffLine;
    if body == [] {
    } else {
      var line := StuffLine(body[0]);
      if k >= |line| + 2 {
        KeptSplits(body, k);
        BlockSplits(body);
        hide KeptAt, AfterDot, Block;
        i := KeptIs(body[1..], k - |line| - 2);
        if i < |body| - 1 {
          AfterDotLater(body, k, i);
        }
        KeptLater(body, i);
        i := i + 1;
      } else {
        StuffedDot(body[0]);
      }
    }
  }

  lemma KeptSplits(body: seq<string>, k: nat)
    requires body != [] && k >= |StuffLine(body[0])| + 2 && KeptAt(body, k).Some?
    ensures var kept := KeptAt(body[1..], k - |StuffLine(body[0])| - 2);
            kept.Some? && KeptAt(body, k).value == [body[0]] + kept.value
  {
  }

  lemma BlockSplits(body: seq<string>)
    requires body != []
    ensures |Block(body)| == |StuffLine(body[0])| + 2 + |Block(body[1..])|
  {
  }

  lemma KeptLater(body: seq<string>, i: nat)
    requires body != [] && i < |body|
    ensures [body[0]] + body[1..][..i] == body[..i + 1]
  {
  }

  lemma AfterDotLater(body: seq<string>, k: nat, i: nat)
    requires body != [] && AfterDot(body[1..], k - |StuffLine(body[0])| - 2, i)
    ensures AfterDot(body, k, i + 1)
  {
    hide StuffLine;
  }

  lemma StuffedDot(line: string)
    ensures StuffLine(line) != [] && StuffLine(line)[0] == '.' ==> line != [] && line[0] == '.'
  {
  }

  lemma {:induction false} KeptAtEnd(body: seq<string>, k: nat)
    requires |Block(body)| <= k + 2 < |Block(body)| + 2
    ensures KeptAt(body, k) == Some(body)
  {
    if body == [] {
    } else {
      KeptAtEnd(body[1..], k - |StuffLine(body[0])| - 2);
      assert [body[0]] + body[1..] == body;
    }
  }

  lemma {:induction false} BlockIsLonger(body: seq<string>, i: nat)
    requires i < |body|
    ensures Offset(body, i) + |StuffLine(body[i])| + 5 <= |Block(body)|
    decreases i
  {
    if i > 0 {
      BlockIsLonger(body[1..], i - 1);
    } else {
      BlockHasTerminator(body[1..]);
    }
  }

  lemma {:induction false} BlockHasTerminator(body: seq<string>)
    ensures |Block(body)| >= 3
  {
    if body == [] {
    } else {
      BlockHasTerminator(body[1..]);
    }
  }

  /** A cut within a frame is harmless, leaving all of it or nothing, exactly when it is not a bad one. */
  lemma HarmlessIff(f: Frame, n: nat, max: nat)
    requires n < |Serialize(f)|
    ensures TornAt(f, n, max) == (if Arrived(f, n) then IfFits(f, max) else []) <==> !BadCut(f, n, max)
  {
    match f
    case Rreg(t, reg) => RregHarmlessIff(t, reg, n, max);
    case Feed(m) => FeedHarmlessIff(m, n, max);
  }

  lemma RregHarmlessIff(t: string, reg: TypeReg, n: nat, max: nat)
    requires n < |Serialize(Rreg(t, reg))|
    ensures TornAt(Rreg(t, reg), n, max) == (if Arrived(Rreg(t, reg), n) then [Rreg(t, reg)] else [])
       <==> !BadCut(Rreg(t, reg), n, max)
  {
    hide RregLine, RregHead, Print;
    RregSplits(t, reg);
  }

  lemma FeedHarmlessIff(m: Message, n: nat, max: nat)
    requires n < |Serialize(Feed(m))|
    ensures TornAt(Feed(m), n, max) == (if Arrived(Feed(m), n) then IfFits(Feed(m), max) else [])
       <==> !BadCut(Feed(m), n, max)
  {
    hide FeedHeader, Block, KeptAt, BodySize, Offset;
    var k := n - |FeedHeader(m)| - 2;
    BlockHasTerminator(m.body);
    forall i: nat | AfterDot(m.body, k, i)
      ensures !Arrived(Feed(m), n) && k >= 0 && KeptAt(m.body, k) == Some(m.body[..i])
    {
      BlockIsLonger(m.body, i);
      KeptBeforeDot(m.body, k, i);
    }
    if k >= 0 {
      if Arrived(Feed(m), n) {
        KeptAtEnd(m.body, k);
        assert m.(body := m.body) == m;
      } else if KeptAt(m.body, k).Some? {
        var i := KeptIs(m.body, k);
        assert AfterDot(m.body, k, i) && m.body[..i] != m.body;
      }
    }
  }

  // --- every cut of a stream --------------------------------------------------------------------------------------

  /** What the reader makes of the first `n` octets of a stream of frames. */
  function TornFrames(fs: seq<Frame>, n: nat, max: nat): seq<Frame>
  {
    if fs == [] then []
    else if n >= |Serialize(fs[0])| then IfFits(fs[0], max) + TornFrames(fs[1..], n - |Serialize(fs[0])|, max)
    else TornAt(fs[0], n, max)
  }

  /** How many frames are complete within `n` octets. */
  function WholeFrames(fs: seq<Frame>, n: nat): (k: nat)
    ensures k <= |fs|
  {
    if fs == [] then 0
    else if n >= |Serialize(fs[0])| then 1 + WholeFrames(fs[1..], n - |Serialize(fs[0])|)
    else if Arrived(fs[0], n) then 1
    else 0
  }

  ghost predicate CutsCleanly(fs: seq<Frame>, n: nat, max: nat)
  {
    fs == []
    || if n >= |Serialize(fs[0])| then CutsCleanly(fs[1..], n - |Serialize(fs[0])|, max)
       else !BadCut(fs[0], n, max)
  }

  /** Every prefix of every stream, exactly. */
  lemma {:induction false} TornStream(fs: seq<Frame>, n: nat, max: nat)
    requires (forall f :: f in fs ==> IsWellFormed(f)) && n <= |SerializeAll(fs)|
    ensures FramesOf(SerializeAll(fs)[..n], max) == TornFrames(fs, n, max)
  {
    hide FramesOf, Serialize, TornAt, IsWellFormed, IfFits;
    if fs == [] {
      NoFrames(max);
    } else {
      var first, rest := Serialize(fs[0]), SerializeAll(fs[1..]);
      if n >= |first| {
        assert SerializeAll(fs)[..n] == first + rest[..n - |first|];
        OneFrame(fs[0], rest[..n - |first|], max);
        TornStream(fs[1..], n - |first|, max);
      } else {
        assert SerializeAll(fs)[..n] == first[..n];
        TornFrame(fs[0], n, max);
      }
    }
  }

  lemma {:induction false} WholeIff(fs: seq<Frame>, n: nat, max: nat)
    ensures TornFrames(fs, n, max) == Fitting(fs[..WholeFrames(fs, n)], max) <==> CutsCleanly(fs, n, max)
  {
    hide Serialize, TornAt, IfFits, BadCut, Arrived;
    if fs == [] {
    } else if n >= |Serialize(fs[0])| {
      var k := WholeFrames(fs[1..], n - |Serialize(fs[0])|);
      WholeIff(fs[1..], n - |Serialize(fs[0])|, max);
      assert fs[..k + 1][1..] == fs[1..][..k];
      SameTail(IfFits(fs[0], max), TornFrames(fs[1..], n - |Serialize(fs[0])|, max), Fitting(fs[1..][..k], max));
    } else {
      HarmlessIff(fs[0], n, max);
      FittingOne(fs[0], max);
      assert fs[..1] == [fs[0]] && fs[..0] == [];
    }
  }

  lemma SameTail<T>(a: seq<T>, b: seq<T>, c: seq<T>)
    ensures a + b == a + c <==> b == c
    ensures a + b <= a + c <==> b <= c
  {
    assert b == (a + b)[|a|..] && c == (a + c)[|a|..];
  }

  lemma FittingOne(f: Frame, max: nat)
    ensures Fitting([f], max) == IfFits(f, max) && Fitting([], max) == []
  {
    assert [f][1..] == [] && IfFits(f, max) + [] == IfFits(f, max);
  }

  /** A stream that ends after `n` octets gives the reader exactly the frames complete by then, whole,
      if and only if the cut is neither strictly inside a timestamp nor right after a stuffing dot whose
      preceding lines fit. */
  lemma CutStreamIff(fs: seq<Frame>, n: nat, max: nat)
    requires (forall f :: f in fs ==> IsWellFormed(f)) && n <= |SerializeAll(fs)|
    ensures FramesOf(SerializeAll(fs)[..n], max) == Fitting(fs[..WholeFrames(fs, n)], max) <==> CutsCleanly(fs, n, max)
  {
    hide FramesOf, TornFrames, Fitting, CutsCleanly, IsWellFormed;
    TornStream(fs, n, max);
    WholeIff(fs, n, max);
  }

  /** No two messages of the stream share an id. */
  ghost predicate DistinctIds(fs: seq<Frame>)
  {
    forall f, g :: f in fs && g in fs && f.Feed? && g.Feed? && f.msg.msgId == g.msg.msgId ==> f == g
  }

  lemma {:induction false} FittingFrom(fs: seq<Frame>, max: nat, f: Frame)
    requires f in Fitting(fs, max)
    ensures f in fs
  {
    if f !in IfFits(fs[0], max) {
      FittingFrom(fs[1..], max, f);
    }
  }

  lemma BadIsNoPrefix(fs: seq<Frame>, n: nat, max: nat)
    requires fs != [] && DistinctIds(fs) && n < |Serialize(fs[0])| && BadCut(fs[0], n, max)
    ensures !(TornAt(fs[0], n, max) <= Fitting(fs, max))
  {
    hide Fitting, Serialize;
    var f, got := fs[0], TornAt(fs[0], n, max);
    HarmlessIff(f, n, max);
    if f.Rreg? {
      WrongRecord(fs, n, max);
    } else {
      WrongMessage(fs, n, max);
    }
  }

  lemma WrongRecord(fs: seq<Frame>, n: nat, max: nat)
    requires fs != [] && fs[0].Rreg? && BadCut(fs[0], n, max)
    ensures !(TornAt(fs[0], n, max) <= Fitting(fs, max))
  {
    hide RregLine, RregHead, Print;
    var t, reg := fs[0].typeName, fs[0].reg;
    RregSplits(t, reg);
    PrintLead(reg.ts, |RregLine(t, reg)| - n);
    assert Fitting(fs, max)[0] == fs[0];
  }

  lemma WrongMessage(fs: seq<Frame>, n: nat, max: nat)
    requires fs != [] && fs[0].Feed? && DistinctIds(fs) && n < |Serialize(fs[0])| && BadCut(fs[0], n, max)
    ensures !(TornAt(fs[0], n, max) <= Fitting(fs, max))
  {
    hide FeedHeader, Block, KeptAt, Fitting, Offset;
    var m := fs[0].msg;
    var k := n - |FeedHeader(m)| - 2;
    var i: nat :| AfterDot(m.body, k, i) && BodySize(m.body[..i]) <= max;
    KeptBeforeDot(m.body, k, i);
    var torn := Feed(m.(body := m.body[..i]));
    assert TornAt(fs[0], n, max) == [torn] && torn != fs[0] && torn.msg.msgId == m.msgId;
    if [torn] <= Fitting(fs, max) {
      assert Fitting(fs, max)[0] == [torn][0] == torn;
      FittingFrom(fs, max, torn);
    }
  }

  lemma {:induction false} PrefixIff(fs: seq<Frame>, n: nat, max: nat)
    requires DistinctIds(fs)
    ensures TornFrames(fs, n, max) <= Fitting(fs, max) <==> CutsCleanly(fs, n, max)
  {
    hide Serialize, TornAt, IfFits, BadCut, Arrived, DistinctIds;
    if fs == [] {
    } else if n >= |Serialize(fs[0])| {
      DistinctTail(fs);
      PrefixIff(fs[1..], n - |Serialize(fs[0])|, max);
      SameTail(IfFits(fs[0], max), TornFrames(fs[1..], n - |Serialize(fs[0])|, max), Fitting(fs[1..], max));
    } else if BadCut(fs[0], n, max) {
      BadIsNoPrefix(fs, n, max);
    } else {
      HarmlessIff(fs[0], n, max);
    }
  }

  lemma DistinctTail(fs: seq<Frame>)
    requires fs != [] && DistinctIds(fs)
    ensures DistinctIds(fs[1..])
  {
    assert forall f :: f in fs[1..] ==> f in fs;
  }

  /** If no two messages share an id, as holds on every link, this is also when what the reader gets is
      a prefix of what it would have got of the whole stream. */
  lemma CutIsPrefixIff(fs: seq<Frame>, n: nat, max: nat)
    requires (forall f :: f in fs ==> IsWellFormed(f)) && DistinctIds(fs) && n <= |SerializeAll(fs)|
    ensures FramesOf(SerializeAll(fs)[..n], max) <= Fitting(fs, max) <==> CutsCleanly(fs, n, max)
  {
    hide FramesOf, TornFrames, Fitting, CutsCleanly, IsWellFormed, DistinctIds;
    TornStream(fs, n, max);
    PrefixIff(fs, n, max);
  }
}
