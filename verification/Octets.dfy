/** The octets on the wire, spelled out: status lines, pushes, frames and blocks as literal text. */
module Octets {
  import opened Text
  import opened Messages
  import opened Ownership
  import opened Framing
  import opened Outbound
  import opened Registries
  import opened Cluster
  import opened Replies
  import opened Exchanges
  import Commands
  import Peering

  // --- numbers ------------------------------------------------------------------------------------------

  /** `s` is `n` in decimal, in ASCII, with no leading zero. */
  ghost predicate IsDecimal(s: string, n: nat)
  {
    && Positional(s, n, 10) && s != [] && (|s| > 1 ==> s[0] != '0')
  }

  lemma ProductGrows(p: nat, base: nat, q: nat)
    requires q >= base
    ensures p * q >= base * p
  {
    assert p * q == base * p + p * (q - base);
  }

  lemma QuotientBetween(n: nat, p: nat, base: nat)
    requires p > 0 && p <= n < base * p
    ensures 0 < n / p < base
  {
    var q, r := n / p, n % p;
    DivideAnd(n, p);
    AtMostBase(n, p, base, q, r);
  }

  lemma AtMostBase(n: nat, p: nat, base: nat, q: nat, r: nat)
    requires n == p * q + r && r < p && p <= n < base * p
    ensures 0 < q < base
  {
    if q >= base {
      ProductGrows(p, base, q);
    }
  }

  lemma SmallIsOwnRest(q: nat, base: nat)
    requires q < base
    ensures q % base == q
  {
    DivisionIs(q, base, 0, q);
  }

  lemma FirstDigit(s: string, n: nat, base: nat)
    requires base > 1 && s != [] && Positional(s, n, base) && Pow(base, |s| - 1) <= n
    ensures exists d :: 0 < d < base && s[0] as nat == DigitCode(d)
  {
    var p := Pow(base, |s| - 1);
    assert s[|s| - 1 - (|s| - 1)] as nat == DigitCode(n / p % base);
    assert n < base * p;
    hide Positional, Pow, DigitCode;
    QuotientBetween(n, p, base);
    SmallIsOwnRest(n / p, base);
    assert s[0] as nat == DigitCode(n / p);
  }

  lemma PrintIsDecimal(n: nat)
    ensures IsDecimal(Print(n, 10), n)
  {
    hide Positional, Pow, Print;
    PrintIsPositional(n, 10);
    if n > 0 {
      FirstDigit(Print(n, 10), n, 10);
    }
  }

  /** Three digits for the codes of the protocol. */
  lemma CodeText(code: nat)
    requires 100 <= code < 1000
    ensures Print(code, 10)
         == [(48 + code / 100) as char, (48 + code / 10 % 10) as char, (48 + code % 10) as char]
  {
    hide Print;
    ThreeDigits(code);
    PrintIsPositional(code, 10);
    var s := Print(code, 10);
    assert Pow(10, 0) == 1 && Pow(10, 1) == 10 && Pow(10, 2) == 100;
    assert s[3 - 1 - 0] as nat == DigitCode(code / Pow(10, 0) % 10);
    assert s[3 - 1 - 1] as nat == DigitCode(code / Pow(10, 1) % 10);
    assert s[3 - 1 - 2] as nat == DigitCode(code / Pow(10, 2) % 10);
  }

  /** A status line begins with the three decimal digits of its code and a space. */
  lemma StatusOctets(code: nat, text: string)
    requires 100 <= code < 1000
    ensures StatusLine(code, text)
         == [(48 + code / 100) as char, (48 + code / 10 % 10) as char, (48 + code % 10) as char, ' '] + text
  {
    hide Print;
    CodeText(code);
  }

  lemma StatusRendered(code: nat, text: string)
    requires 100 <= code < 1000
    ensures Render(Status(code, text))
         == [(48 + code / 100) as char, (48 + code / 10 % 10) as char, (48 + code % 10) as char, ' '] + text + "\r\n"
  {
    hide StatusLine;
    StatusOctets(code, text);
  }

  // --- what the daemon writes to a client --------------------------------------------------------------

  lemma GreetingOctets(daemon: string)
    ensures Greeting(daemon) == "200 " + (daemon + " macro-bus MBP/1.0 ready") + "\r\n"
  {
    hide StatusLine;
    StatusOctets(200, daemon + " macro-bus MBP/1.0 ready");
  }

  /** REGISTER: 210 for a free type and for the same key, 433 for another key. */
  lemma RegisterOctets(daemon: string, t: string, key: string, held: Option<TypeReg>, u: Unit, sent: seq<Frame>)
    requires RegisterAnswered(daemon, t, key, held, u, sent)
    ensures Render(u) == if held.None? || held.value.key == key then "210 " + (t + " registered") + "\r\n"
                         else "433 " + (t + " already registered") + "\r\n"
  {
    hide Render;
    StatusRendered(210, t + " registered");
    StatusRendered(433, t + " already registered");
  }

  /** PUBLISH: 430 for a type nobody registered, 441 for one registered under another key; 354 and then 250, or
      452, or one of these two. */
  lemma RefusalOctets(t: string, held: Option<TypeReg>)
    ensures Render(Refusal(held, t)) == if held.None? then "430 " + (t + " not registered") + "\r\n"
                                        else "441 " + "authorization key mismatch" + "\r\n"
  {
    hide Render;
    StatusRendered(430, t + " not registered");
    StatusRendered(441, "authorization key mismatch");
  }

  lemma VerdictOctets()
    ensures Render(INVITE) == "354 " + "enter message body; end with <CRLF>.<CRLF>" + "\r\n"
    ensures Render(REFUSED_SIZE) == "452 " + "message too large" + "\r\n"
    ensures Render(MESSAGE_ACCEPTED) == "250 " + "message accepted" + "\r\n"
    ensures Render(LINE_TOO_LONG) == "500 " + "command line too long" + "\r\n"
  {
    hide Render;
    StatusRendered(354, "enter message body; end with <CRLF>.<CRLF>");
    StatusRendered(452, "message too large");
    StatusRendered(250, "message accepted");
    StatusRendered(500, "command line too long");
  }

  /** The one reply to the other commands. */
  lemma ReplyOctets(cmd: Commands.Command, u: Unit)
    requires Fits(cmd, u)
    ensures cmd.Subscribe? ==> Render(u) == "211 " + ("subscribed " + cmd.typeName) + "\r\n"
    ensures cmd.Unsubscribe? ==> Render(u) == "212 " + ("unsubscribed " + cmd.typeName) + "\r\n"
    ensures cmd.Quit? ==> Render(u) == "221 " + "closing connection" + "\r\n"
    ensures cmd.ListTypes? ==> u.Listing? && Render(u) == "215 " + u.text + "\r\n" + Block(u.lines)
    ensures cmd.Capabilities? || cmd.Help? ==> u.Listing? && Render(u) == "231 " + u.text + "\r\n" + Block(u.lines)
  {
    hide Render, Block, LfFree;
    if u.Listing? {
      ListingRendered(u.code, u.text, u.lines);
    } else if u.Status? {
      StatusRendered(u.code, u.text);
    }
  }

  lemma ListingRendered(code: nat, text: string, lines: seq<string>)
    requires 100 <= code < 1000
    ensures Render(Listing(code, text, lines))
         == [(48 + code / 100) as char, (48 + code / 10 % 10) as char, (48 + code % 10) as char, ' '] + text + "\r\n"
            + Block(lines)
  {
    hide StatusLine;
    StatusOctets(code, text);
  }

  lemma HeaderOctets(a: string, b: string, c: string)
    ensures StatusLine(101, "MSG" + [SP] + (a + [SP] + (b + [SP] + c))) == "101 MSG " + (a + " " + (b + " " + c))
    ensures StatusLine(102, "DROP" + [SP] + (a + [SP] + b)) == "102 DROP " + (a + " " + b)
  {
    hide StatusLine;
    Prefixed("101 ", "MSG ", a + " " + (b + " " + c));
    Prefixed("102 ", "DROP ", a + " " + b);
    StatusOctets(101, "MSG " + (a + " " + (b + " " + c)));
    StatusOctets(102, "DROP " + (a + " " + b));
    assert "MSG" + [SP] == "MSG " && "DROP" + [SP] == "DROP ";
    assert "101 " + "MSG " == "101 MSG " && "102 " + "DROP " == "102 DROP ";
  }

  lemma Prefixed(x: string, y: string, z: string)
    ensures x + (y + z) == x + y + z
  {
  }

  /** A delivery is `101 MSG`, the header fields and the body as a block. */
  lemma DeliveryOctets(m: Message)
    ensures Render(Unit.Push(Delivered(m)))
         == "101 MSG " + (m.typeName + " " + (m.msgId + " " + m.origin)) + "\r\n" + Block(m.body)
  {
    hide StatusLine, Block;
    HeaderOctets(m.typeName, m.msgId, m.origin);
  }

  /** A drop notice is `102 DROP`, the type and the count in decimal. */
  lemma NoticeOctets(n: Notice)
    ensures Render(Unit.Push(Dropped(n))) == "102 DROP " + (n.typeName + " " + Print(n.count, 10)) + "\r\n"
    ensures IsDecimal(Print(n.count, 10), n.count)
  {
    hide StatusLine, Print, IsDecimal;
    HeaderOctets(n.typeName, Print(n.count, 10), []);
    PrintIsDecimal(n.count);
  }

  /** A block is the lines, each with one more dot if it begins with one, and then a lone dot. */
  lemma BlockOctets(line: string, lines: seq<string>)
    ensures Block([]) == ".\r\n"
    ensures Block([line] + lines) == (if "." <= line then "." else "") + line + "\r\n" + Block(lines)
  {
    assert ([line] + lines)[1..] == lines;
  }

  /** The size of a body counts every line with one octet for its end: against its block, one octet less a
      line, without the stuffing dots and the last three. */
  lemma {:induction false} SizeOfBlock(lines: seq<string>)
    ensures |Block(lines)| == BodySize(lines) + |lines| + Dotted(lines) + 3
  {
    if lines == [] {
    } else {
      SizeOfBlock(lines[1..]);
      SizeCons(lines);
    }
  }

  /** How many lines begin with a dot. */
  function Dotted(lines: seq<string>): nat
  {
    if lines == [] then 0 else Dotted(lines[1..]) + if "." <= lines[0] then 1 else 0
  }

  lemma {:induction false} SizeCons(lines: seq<string>)
    requires lines != []
    ensures BodySize(lines) == |lines[0]| + 1 + BodySize(lines[1..])
    decreases |lines|
  {
    if |lines| == 1 {
      assert lines[..0] == [] && lines[1..] == [];
    } else {
      var init := lines[..|lines| - 1];
      SizeCons(init);
      assert init[1..] == lines[1..][..|lines| - 2];
    }
  }

  // --- what the daemon writes to a peer -------------------------------------------------------------------

  lemma FrameOctets(m: Message, t: string, reg: TypeReg)
    ensures Peering.Serialize(Feed(m))
         == "FEED " + (m.typeName + " " + (m.msgId + " " + m.origin)) + "\r\n" + Block(m.body)
    ensures Peering.Serialize(Rreg(t, reg))
         == "RREG " + (t + " " + (reg.key + " " + (reg.origin + " " + Print(reg.ts, 10)))) + "\r\n"
    ensures IsDecimal(Print(reg.ts, 10), reg.ts)
  {
    hide Print;
    PrintIsDecimal(reg.ts);
    var a := m.typeName + " " + (m.msgId + " " + m.origin);
    var b := t + " " + (reg.key + " " + (reg.origin + " " + Print(reg.ts, 10)));
    assert "FEED" + " " + a == "FEED " + a && "RREG" + " " + b == "RREG " + b;
  }

  /** A message id is the daemon's id, a hyphen and the number in lower-case hexadecimal. */
  lemma IdOctets(daemon: string, n: nat)
    ensures |daemon| < |MsgId(daemon, n)| && MsgId(daemon, n)[..|daemon|] == daemon
    ensures MsgId(daemon, n)[|daemon|] == '-' && Positional(MsgId(daemon, n)[|daemon| + 1..], n, 16)
  {
    hide Print, Positional;
    PrintIsPositional(n, 16);
    var id := MsgId(daemon, n);
    assert id[|daemon| + 1..] == Print(n, 16);
  }
}
