/** The client library: telling command replies and pushes apart on one stream. */
module Clients {
  import opened Text
  import opened Messages
  import opened Lines
  import opened Framing
  import opened Outbound
  import opened Replies

  datatype Error = Closed | Server(code: nat, text: string) | Protocol

  datatype Got<+T> = Got(value: T, rest: string) | Failed(error: Error)

  datatype Response = Response(code: nat, text: string, block: Option<seq<string>>)

  // --- what each read yields, as functions of the unread stream ---------------------------------

  /** One line of at most `max` octets before its LF. */
  function ClientLine(s: string, max: nat): Got<string>
  {
    match FirstLf(s)
    case None => Failed(if |s| > max then Protocol else Closed)
    case Some(p) => if p > max then Failed(Protocol) else Got(StripCr(s[..p]), s[p + 1..])
  }

  lemma ClientLineShrinks(s: string, max: nat)
    ensures ClientLine(s, max).Got? ==> |ClientLine(s, max).rest| < |s|
  {
  }

  /** What the octets after an unfinished line `buf` decide. */
  lemma LineCases(buf: string, rest: string, max: nat)
    requires LF !in buf && |buf| <= max
    ensures rest == [] ==> ClientLine(buf + rest, max) == Failed(Closed)
    ensures rest != [] && rest[0] == LF ==> ClientLine(buf + rest, max) == Got(StripCr(buf), rest[1..])
    ensures rest != [] && rest[0] != LF && |buf| == max ==> ClientLine(buf + rest, max) == Failed(Protocol)
  {
    hide StripCr;
    var s := buf + rest;
    if rest != [] {
      assert s[..|buf|] == buf && s[|buf| + 1..] == rest[1..];
      if rest[0] == LF {
        FirstLfIs(s, |buf|);
      } else {
        assert s[..|buf| + 1] == buf + [rest[0]];
      }
    }
  }

  function ClientBlock(s: string, max: nat): Got<seq<string>>
    decreases |s|
  {
    ClientLineShrinks(s, max);
    match ClientLine(s, max)
    case Failed(e) => Failed(e)
    case Got(line, rest) =>
      if line == TERMINATOR then Got([], rest)
      else match ClientBlock(rest, max)
        case Failed(e) => Failed(e)
        case Got(lines, after) => Got([UnstuffLine(line)] + lines, after)
  }

  function SplitStatus(line: string): Option<(nat, string)>
  {
    if |line| < 3 then None
    else match ParseUnsigned(line[..3], U16_LIMIT)
      case None => None
      case Some(code) => Some((code, if |line| >= 4 then line[4..] else []))
  }

  predicate IsAsync(code: nat)
  {
    code / 100 == 1
  }

  function ReadPushed(code: nat, text: string, s: string, max: nat): Got<Event>
  {
    if code == MSG then
      var t, id, origin := Field(text, 1), Field(text, 2), Field(text, 3);
      if Field(text, 0) != "MSG" || t == [] || id == [] || origin == [] then Failed(Protocol)
      else match ClientBlock(s, max)
        case Failed(e) => Failed(e)
        case Got(body, rest) => Got(Delivered(Message(t, id, origin, body)), rest)
    else if code == DROP then
      match ParseUnsigned(Field(text, 2), U64_LIMIT)
      case None => Failed(Protocol)
      case Some(n) => if Field(text, 0) != "DROP" then Failed(Protocol) else Got(Dropped(Notice(Field(text, 1), n)), s)
    else if code == NOTE then Got(Noted(StripNote(text)), s)
    else Failed(Protocol)
  }

  /** Read one whole unit: a push, or a reply with its list. */
  datatype Taken = Pushed(event: Event) | Replied(response: Response)

  function TakeUnit(s: string, max: nat): Got<Taken>
  {
    match ClientLine(s, max)
    case Failed(e) => Failed(e)
    case Got(line, rest) =>
      match SplitStatus(line)
      case None => Failed(Protocol)
      case Some((code, text)) =>
        if IsAsync(code) then
          match ReadPushed(code, text, rest, max)
          case Failed(e) => Failed(e)
          case Got(ev, after) => Got(Pushed(ev), after)
        else if HasList(code) then
          match ClientBlock(rest, max)
          case Failed(e) => Failed(e)
          case Got(lines, after) => Got(Replied(Response(code, text, Some(lines))), after)
        else Got(Replied(Response(code, text, None)), rest)
  }

  lemma {:induction false} BlockShrinks(s: string, max: nat)
    ensures ClientBlock(s, max).Got? ==> |ClientBlock(s, max).rest| < |s|
    decreases |s|
  {
    ClientLineShrinks(s, max);
    if ClientLine(s, max).Got? {
      BlockShrinks(ClientLine(s, max).rest, max);
    }
  }

  lemma TakeUnitShrinks(s: string, max: nat)
    ensures TakeUnit(s, max).Got? ==> |TakeUnit(s, max).rest| < |s|
  {
    ClientLineShrinks(s, max);
    if ClientLine(s, max).Got? {
      BlockShrinks(ClientLine(s, max).rest, max);
    }
  }

  /** The reply to a command, and the pending events with the pushes that came before it. */
  function ReadReply(s: string, pending: seq<Event>, max: nat): (Got<Response>, seq<Event>)
    decreases |s|
  {
    TakeUnitShrinks(s, max);
    match TakeUnit(s, max)
    case Failed(e) => (Failed(e), pending)
    case Got(Pushed(ev), rest) => ReadReply(rest, pending + [ev], max)
    case Got(Replied(r), rest) => (Got(r, rest), pending)
  }

  /** The next event: a pending one, or the push that must come next on the stream. */
  function TakeEvent(s: string, pending: seq<Event>, max: nat): (Got<Event>, seq<Event>)
  {
    if pending != [] then (Got(pending[0], s), pending[1..])
    else match ClientLine(s, max)
      case Failed(e) => (Failed(e), [])
      case Got(line, rest) => match SplitStatus(line)
        case None => (Failed(Protocol), [])
        case Some((code, text)) => (if IsAsync(code) then ReadPushed(code, text, rest, max) else Failed(Protocol), [])
  }

  lemma SkipPush(s: string, rest: string, ev: Event, pending: seq<Event>, max: nat)
    requires TakeUnit(s, max) == Got(Pushed(ev), rest)
    ensures ReadReply(s, pending, max) == ReadReply(rest, pending + [ev], max)
  {
  }

  lemma StopAtReply(s: string, rest: string, r: Response, pending: seq<Event>, max: nat)
    requires TakeUnit(s, max) == Got(Replied(r), rest)
    ensures ReadReply(s, pending, max) == (Got(r, rest), pending)
  {
  }

  // --- whole units are recovered exactly -------------------------------------------------------------

  function TakenOf(u: Unit): Taken
  {
    match u
    case Push(ev) => Pushed(ev)
    case Status(code, text) => Replied(Response(code, text, None))
    case Listing(code, text, lines) => Replied(Response(code, text, Some(lines)))
  }

  lemma ClientLineOf(line: string, rest: string, max: nat)
    requires LF !in line && |line| < max
    ensures ClientLine(line + CRLF + rest, max) == Got(line, rest)
  {
    var s := line + CRLF + rest;
    assert s[..|line| + 1] == line + [CR];
    FirstLfIs(s, |line| + 1);
    assert s[|line| + 2..] == rest;
  }

  lemma BlockHead(lines: seq<string>, rest: string, max: nat)
    requires lines != [] && LfFree(lines) && BlockWithin(lines, max)
    ensures ClientLine(Block(lines) + rest, max) == Got(StuffLine(lines[0]), Block(lines[1..]) + rest)
  {
    hide ClientLine;
    var head, tail := StuffLine(lines[0]), Block(lines[1..]) + rest;
    StuffRoundTrip(lines[0]);
    assert lines[0] in lines && Block(lines) + rest == head + CRLF + tail;
    ClientLineOf(head, tail, max);
  }

  lemma BlockStep(s: string, line: string, tail: string, more: seq<string>, after: string, max: nat)
    requires ClientLine(s, max) == Got(line, tail) && line != TERMINATOR
    requires ClientBlock(tail, max) == Got(more, after)
    ensures ClientBlock(s, max) == Got([UnstuffLine(line)] + more, after)
  {
  }

  lemma {:induction false} ClientBlockOf(lines: seq<string>, rest: string, max: nat)
    requires LfFree(lines) && BlockWithin(lines, max)
    ensures ClientBlock(Block(lines) + rest, max) == Got(lines, rest)
  {
    if lines == [] {
      ClientLineOf(TERMINATOR, rest, max);
    } else {
      var tail := Block(lines[1..]) + rest;
      ClientBlockOf(lines[1..], rest, max);
      BlockHead(lines, rest, max);
      StuffRoundTrip(lines[0]);
      BlockStep(Block(lines) + rest, StuffLine(lines[0]), tail, lines[1..], rest, max);
      assert [lines[0]] + lines[1..] == lines;
    }
  }

  lemma SplitStatusOf(code: nat, text: string)
    requires 100 <= code < 1000
    ensures SplitStatus(StatusLine(code, text)) == Some((code, text))
    ensures LF !in text ==> LF !in StatusLine(code, text)
  {
    ThreeDigits(code);
    var line := StatusLine(code, text);
    assert line[..3] == Print(code, 10);
    assert line[4..] == text;
  }

  lemma TakeDelivery(m: Message, rest: string, max: nat)
    requires IsWellFormed(Push(Delivered(m))) && WithinCap(Push(Delivered(m)), max)
    ensures TakeUnit(Delivery(m) + rest, max) == Got(Pushed(Delivered(m)), rest)
  {
    var text, tail := MsgText(m), Block(m.body) + rest;
    SplitStatusOf(MSG, text);
    MsgFields(m);
    assert Delivery(m) + rest == StatusLine(MSG, text) + CRLF + tail;
    ClientLineOf(StatusLine(MSG, text), tail, max);
    ClientBlockOf(m.body, rest, max);
  }

  lemma MsgFields(m: Message)
    requires IsField(m.typeName) && IsField(m.msgId) && IsField(m.origin)
    ensures LF !in MsgText(m)
    ensures Field(MsgText(m), 0) == "MSG" && Field(MsgText(m), 1) == m.typeName
    ensures Field(MsgText(m), 2) == m.msgId && Field(MsgText(m), 3) == m.origin
  {
    var a2 := m.msgId + [SP] + m.origin;
    var a1 := m.typeName + [SP] + a2;
    FieldAt("MSG", a1, 0);
    FieldAt("MSG", a1, 1);
    FieldAt("MSG", a1, 2);
    FieldAt(m.typeName, a2, 0);
    FieldAt(m.typeName, a2, 1);
    FieldAt(m.msgId, m.origin, 0);
    FieldAt(m.origin, [], 0);
  }

  lemma DropFields(n: Notice)
    requires IsField(n.typeName) && n.count < U64_LIMIT
    ensures LF !in DropText(n) && Field(DropText(n), 0) == "DROP" && Field(DropText(n), 1) == n.typeName
    ensures ParseUnsigned(Field(DropText(n), 2), U64_LIMIT) == Some(n.count)
  {
    var count := Print(n.count, 10);
    ParsePrinted(n.count, U64_LIMIT);
    FieldAt("DROP", n.typeName + [SP] + count, 0);
    FieldAt("DROP", n.typeName + [SP] + count, 1);
    FieldAt(n.typeName, count, 0);
    FieldAt(count, [], 0);
  }

  lemma TakeNotice(n: Notice, rest: string, max: nat)
    requires IsWellFormed(Push(Dropped(n))) && WithinCap(Push(Dropped(n)), max)
    ensures TakeUnit(Render(Push(Dropped(n))) + rest, max) == Got(Pushed(Dropped(n)), rest)
  {
    DropFields(n);
    SplitStatusOf(DROP, DropText(n));
    ClientLineOf(StatusLine(DROP, DropText(n)), rest, max);
  }

  lemma TakeNote(text: string, rest: string, max: nat)
    requires IsWellFormed(Push(Noted(text))) && WithinCap(Push(Noted(text)), max)
    ensures TakeUnit(Render(Push(Noted(text))) + rest, max) == Got(Pushed(Noted(text)), rest)
  {
    SplitStatusOf(NOTE, text);
    ClientLineOf(StatusLine(NOTE, text), rest, max);
  }

  lemma TakeStatus(code: nat, text: string, rest: string, max: nat)
    requires 200 <= code < 600 && !HasList(code) && LF !in text && |StatusLine(code, text)| < max
    ensures TakeUnit(StatusLine(code, text) + CRLF + rest, max) == Got(Replied(Response(code, text, None)), rest)
  {
    SplitStatusOf(code, text);
    ClientLineOf(StatusLine(code, text), rest, max);
  }

  lemma TakeListing(code: nat, text: string, lines: seq<string>, rest: string, max: nat)
    requires HasList(code) && LF !in text && LfFree(lines)
    requires |StatusLine(code, text)| < max && BlockWithin(lines, max)
    ensures TakeUnit(StatusLine(code, text) + CRLF + Block(lines) + rest, max)
         == Got(Replied(Response(code, text, Some(lines))), rest)
  {
    var tail := Block(lines) + rest;
    SplitStatusOf(code, text);
    assert StatusLine(code, text) + CRLF + Block(lines) + rest == StatusLine(code, text) + CRLF + tail;
    ClientLineOf(StatusLine(code, text), tail, max);
    ClientBlockOf(lines, rest, max);
  }

  /** A rendered unit, whatever its body or list lines look like, is read back as that unit. */
  lemma TakeRendered(u: Unit, rest: string, max: nat)
    requires IsWellFormed(u) && WithinCap(u, max)
    ensures TakeUnit(Render(u) + rest, max) == Got(TakenOf(u), rest)
  {
    match u
    case Push(Delivered(m)) => TakeDelivery(m, rest, max);
    case Push(Dropped(n)) => TakeNotice(n, rest, max);
    case Push(Noted(text)) => TakeNote(text, rest, max);
    case Status(code, text) => TakeStatus(code, text, rest, max);
    case Listing(code, text, lines) => TakeListing(code, text, lines, rest, max);
  }

  /** Units are told apart by the hundreds of their code alone: 1xx is a push, and of the others a list follows
      215 and 231 and nothing else. */
  lemma UnitByCode(s: string, max: nat)
    requires TakeUnit(s, max).Got?
    ensures var line := ClientLine(s, max).value;
            && |line| >= 3 && ParseUnsigned(line[..3], U16_LIMIT).Some?
            && var code := ParseUnsigned(line[..3], U16_LIMIT).value;
               match TakeUnit(s, max).value
               case Pushed(ev) =>
                 && (code == 101 || code == 102 || code == 190)
                 && (ev.Delivered? <==> code == 101) && (ev.Dropped? <==> code == 102)
               case Replied(r) =>
                 r.code == code && !(100 <= code < 200) && (r.block.Some? <==> code == 215 || code == 231)
  {
    hide ClientLine, ClientBlock, ParseUnsigned, Field;
  }

  /** A status line with any other code outside 1xx is a reply, whatever its text. */
  lemma OtherCodesAreReplies(s: string, max: nat)
    requires ClientLine(s, max).Got? && |ClientLine(s, max).value| >= 3
    requires ParseUnsigned(ClientLine(s, max).value[..3], U16_LIMIT).Some?
    ensures var line := ClientLine(s, max).value;
            var code := ParseUnsigned(line[..3], U16_LIMIT).value;
            !(100 <= code < 200) && code != 215 && code != 231 ==>
              TakeUnit(s, max) == Got(Replied(Response(code, if |line| >= 4 then line[4..] else [], None)),
                                      ClientLine(s, max).rest)
  {
    hide ClientLine, ParseUnsigned;
  }

  // --- the client, consuming its stream in place ---------------------------------------------------------

  datatype Result<+T> = Ok(value: T) | Err(error: Error)

  /** `r` is what `got` says, and after a success the stream is where `got` leaves it. */
  ghost predicate Yields<T>(r: Result<T>, rest: string, got: Got<T>)
  {
    match got
    case Got(v, after) => r == Ok(v) && rest == after
    case Failed(e) => r == Err(e)
  }

  function Prepend(lines: seq<string>, got: Got<seq<string>>): Got<seq<string>>
  {
    match got
    case Got(more, rest) => Got(lines + more, rest)
    case Failed(e) => Failed(e)
  }

  lemma PrependNothing(got: Got<seq<string>>)
    ensures Prepend([], got) == got
  {
    if got.Got? {
      assert [] + got.value == got.value;
    }
  }

  lemma BlockUnfold(s: string, out: seq<string>, max: nat)
    ensures ClientLine(s, max).Failed? ==> ClientBlock(s, max) == Failed(ClientLine(s, max).error)
    ensures (ClientLine(s, max).Got? && ClientLine(s, max).value == TERMINATOR) ==>
      (Prepend(out, ClientBlock(s, max)) == Got(out, ClientLine(s, max).rest))
    ensures (ClientLine(s, max).Got? && ClientLine(s, max).value != TERMINATOR) ==>
      (Prepend(out, ClientBlock(s, max))
       == Prepend(out + [UnstuffLine(ClientLine(s, max).value)], ClientBlock(ClientLine(s, max).rest, max)))
  {
    hide ClientLine, UnstuffLine;
    assert out + [] == out;
    ClientLineShrinks(s, max);
    if ClientLine(s, max).Got? && ClientLine(s, max).value != TERMINATOR {
      var head, tail := [UnstuffLine(ClientLine(s, max).value)], ClientBlock(ClientLine(s, max).rest, max);
      if tail.Got? {
        assert out + (head + tail.value) == out + head + tail.value;
      }
    }
  }

  /** A reply with another code is an error. */
  function Expected(code: nat, got: Got<Response>): Got<Response>
  {
    if got.Got? && got.value.code != code then Failed(Server(got.value.code, got.value.text)) else got
  }

  function PublishLine(t: string, key: string): string
  {
    "PUBLISH" + [SP] + t + [SP] + key
  }

  /** The outcome of a PUBLISH whose first reply is `first`. */
  ghost predicate Published(r: Result<Response>, rest: string, pending: seq<Event>,
                            first: (Got<Response>, seq<Event>), max: nat)
  {
    var invited := Expected(START_BODY, first.0);
    if invited.Failed? then r == Err(invited.error) && pending == first.1
    else
      var second := ReadReply(invited.rest, first.1, max);
      Yields(r, rest, Expected(ACCEPTED, second.0)) && pending == second.1
  }

  class Client {
    /** What the server has sent or will send and was not read yet; its end is the end of the stream. */
    var rest: string
    var sent: string
    var pending: seq<Event>
    var daemonId: string
    const maxLine: nat

    constructor (stream: string, maxLine: nat)
      ensures rest == stream && sent == [] && pending == [] && this.maxLine == maxLine
    {
      rest, sent, pending, daemonId, this.maxLine := stream, [], [], [], maxLine;
    }

    /** One line, octet by octet. */
    method ReadLine() returns (r: Result<string>)
      modifies this`rest
      ensures Yields(r, rest, ClientLine(old(rest), maxLine))
      ensures r == Err(Closed) ==> rest == []
      ensures r == Err(Protocol) ==> rest == old(rest)[maxLine + 1..]
      ensures r.Ok? ==> |rest| < |old(rest)|
    {
      hide ClientLine, StripCr;
      var buf := [];
      while true
        invariant old(rest) == buf + rest && LF !in buf && |buf| <= maxLine
        decreases |rest|
      {
        LineCases(buf, rest, maxLine);
        if rest == [] {
          return Err(Closed);
        }
        var byte := rest[0];
        rest := rest[1..];
        if byte == LF {
          break;
        }
        assert old(rest) == (buf + [byte]) + rest;
        buf := buf + [byte];
        if |buf| > maxLine {
          return Err(Protocol);
        }
      }
      r := Ok(StripCr(buf));
    }

    /** Lines up to the lone `.`, unstuffed. */
    method ReadBlock() returns (r: Result<seq<string>>)
      modifies this`rest
      ensures Yields(r, rest, ClientBlock(old(rest), maxLine))
      ensures |rest| <= |old(rest)|
    {
      var out := [];
      PrependNothing(ClientBlock(rest, maxLine));
      while true
        invariant Prepend(out, ClientBlock(rest, maxLine)) == ClientBlock(old(rest), maxLine)
        invariant |rest| <= |old(rest)|
        decreases |rest|
      {
        BlockUnfold(rest, out, maxLine);
        var line := ReadLine();
        if line.Err? {
          return Err(line.error);
        }
        if line.value == TERMINATOR {
          return Ok(out);
        }
        out := out + [UnstuffLine(line.value)];
      }
    }

    /** The rest of a push whose status line was `code text`. */
    method ReadPush(code: nat, text: string) returns (r: Result<Event>)
      modifies this`rest
      ensures Yields(r, rest, ReadPushed(code, text, old(rest), maxLine))
      ensures |rest| <= |old(rest)|
    {
      if code == MSG {
        if Field(text, 0) != "MSG" {
          return Err(Protocol);
        }
        var t, id, origin := Field(text, 1), Field(text, 2), Field(text, 3);
        if t == [] || id == [] || origin == [] {
          return Err(Protocol);
        }
        var body := ReadBlock();
        if body.Err? {
          return Err(body.error);
        }
        return Ok(Delivered(Message(t, id, origin, body.value)));
      }
      if code == DROP {
        var count := ParseUnsigned(Field(text, 2), U64_LIMIT);
        if Field(text, 0) != "DROP" || count == None {
          return Err(Protocol);
        }
        return Ok(Dropped(Notice(Field(text, 1), count.value)));
      }
      if code == NOTE {
        return Ok(Noted(StripNote(text)));
      }
      return Err(Protocol);
    }

    /** The reply to a command just sent; pushes that come first are kept for `NextEvent`. */
    method ReadResponse() returns (r: Result<Response>)
      modifies this`rest, this`pending
      ensures Yields(r, rest, ReadReply(old(rest), old(pending), maxLine).0)
      ensures pending == ReadReply(old(rest), old(pending), maxLine).1
    {
      while true
        invariant ReadReply(rest, pending, maxLine) == ReadReply(old(rest), old(pending), maxLine)
        decreases |rest|
      {
        ghost var before := rest;
        var unit := ReadUnit();
        if unit.Err? {
          return Err(unit.error);
        }
        if unit.value.Pushed? {
          SkipPush(before, rest, unit.value.event, pending, maxLine);
          pending := pending + [unit.value.event];
          continue;
        }
        StopAtReply(before, rest, unit.value.response, pending, maxLine);
        return Ok(unit.value.response);
      }
    }

    /** One status line and what belongs to it. */
    method ReadUnit() returns (r: Result<Taken>)
      modifies this`rest
      ensures Yields(r, rest, TakeUnit(old(rest), maxLine))
      ensures r.Ok? ==> |rest| < |old(rest)|
    {
      var line := ReadLine();
      if line.Err? {
        return Err(line.error);
      }
      var status := SplitStatus(line.value);
      if status == None {
        return Err(Protocol);
      }
      var (code, text) := status.value;
      if IsAsync(code) {
        var ev := ReadPush(code, text);
        return if ev.Err? then Err(ev.error) else Ok(Pushed(ev.value));
      }
      if code == TYPE_LIST || code == INFO_FOLLOWS {
        var lines := ReadBlock();
        return if lines.Err? then Err(lines.error) else Ok(Replied(Response(code, text, Some(lines.value))));
      }
      return Ok(Replied(Response(code, text, None)));
    }

    /** The oldest buffered push, or else the push that must come next. */
    method NextEvent() returns (r: Result<Event>)
      modifies this`rest, this`pending
      ensures Yields(r, rest, TakeEvent(old(rest), old(pending), maxLine).0)
      ensures pending == TakeEvent(old(rest), old(pending), maxLine).1
    {
      if pending != [] {
        var ev := pending[0];
        pending := pending[1..];
        return Ok(ev);
      }
      var line := ReadLine();
      if line.Err? {
        return Err(line.error);
      }
      var status := SplitStatus(line.value);
      if status == None {
        return Err(Protocol);
      }
      var (code, text) := status.value;
      if !IsAsync(code) {
        return Err(Protocol);
      }
      r := ReadPush(code, text);
    }

    /** Invite, body, verdict: the block is sent only after a 354. */
    method Publish(t: string, key: string, body: seq<string>) returns (r: Result<Response>)
      modifies this
      ensures Published(r, rest, pending, ReadReply(old(rest), old(pending), maxLine), maxLine)
      ensures var first := ReadReply(old(rest), old(pending), maxLine).0;
              var block := if first.Got? && first.value.code == START_BODY then Block(body) else [];
              sent == old(sent) + PublishLine(t, key) + CRLF + block
    {
      Send(PublishLine(t, key));
      var invitation := ReadResponse();
      if invitation.Err? {
        return invitation;
      }
      if invitation.value.code != START_BODY {
        return Err(Server(invitation.value.code, invitation.value.text));
      }
      var block := EncodeBody(body);
      sent := sent + block;
      r := Expect(ACCEPTED);
    }

    method Send(line: string)
      modifies this`sent
      ensures sent == old(sent) + line + CRLF
    {
      sent := sent + line;
      sent := sent + CRLF;
    }

    /** Any other code is the server's error. */
    method Expect(expected: nat) returns (r: Result<Response>)
      modifies this`rest, this`pending
      ensures Yields(r, rest, Expected(expected, ReadReply(old(rest), old(pending), maxLine).0))
      ensures ReadReply(old(rest), old(pending), maxLine).0.Got? ==>
        rest == ReadReply(old(rest), old(pending), maxLine).0.rest
      ensures pending == ReadReply(old(rest), old(pending), maxLine).1
    {
      var response := ReadResponse();
      if response.Ok? && response.value.code != expected {
        return Err(Server(response.value.code, response.value.text));
      }
      return response;
    }
  }
}
