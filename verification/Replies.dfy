/** What a daemon writes to a client: asynchronous pushes and command replies. */
module Replies {
  import opened Text
  import opened Messages
  import opened Lines
  import opened Framing
  import opened Outbound

  const MSG := 101
  const DROP := 102
  const NOTE := 190
  const SERVICE_READY := 200
  const REGISTERED := 210
  const SUBSCRIBED := 211
  const UNSUBSCRIBED := 212
  const TYPE_LIST := 215
  const CLOSING := 221
  const INFO_FOLLOWS := 231
  const ACCEPTED := 250
  const START_BODY := 354
  const UNKNOWN_TYPE := 430
  const ALREADY_REGISTERED := 433
  const KEY_MISMATCH := 441
  const TOO_LARGE := 452
  const SYNTAX := 500

  /** What a client can be told between replies.  No daemon sends a note, but the client knows them. */
  datatype Event = Delivered(msg: Message) | Dropped(notice: Notice) | Noted(text: string)

  /** One whole piece of server output: a 1xx push, a status line, or a status line with a list. */
  datatype Unit =
    | Push(event: Event)
    | Status(code: nat, text: string)
    | Listing(code: nat, text: string, lines: seq<string>)

  function StatusLine(code: nat, text: string): string
  {
    Print(code, 10) + [SP] + text
  }

  function MsgText(m: Message): string
  {
    "MSG" + [SP] + (m.typeName + [SP] + (m.msgId + [SP] + m.origin))
  }

  function DropText(n: Notice): string
  {
    "DROP" + [SP] + (n.typeName + [SP] + Print(n.count, 10))
  }

  /** The 101 header line, dot-stuffed body and terminator. */
  function Delivery(m: Message): string
  {
    StatusLine(MSG, MsgText(m)) + CRLF + Block(m.body)
  }

  function Render(u: Unit): string
  {
    match u
    case Push(Delivered(m)) => Delivery(m)
    case Push(Dropped(n)) => StatusLine(DROP, DropText(n)) + CRLF
    case Push(Noted(text)) => StatusLine(NOTE, text) + CRLF
    case Status(code, text) => StatusLine(code, text) + CRLF
    case Listing(code, text, lines) => StatusLine(code, text) + CRLF + Block(lines)
  }

  function RenderAll(us: seq<Unit>): string
  {
    if us == [] then [] else Render(us[0]) + RenderAll(us[1..])
  }

  lemma {:induction false} RenderConcat(a: seq<Unit>, b: seq<Unit>)
    ensures RenderAll(a + b) == RenderAll(a) + RenderAll(b)
  {
    if a == [] {
      assert a + b == b;
    } else {
      assert (a + b)[1..] == a[1..] + b;
      RenderConcat(a[1..], b);
    }
  }

  lemma RenderSnoc(a: seq<Unit>, u: Unit)
    ensures RenderAll(a + [u]) == RenderAll(a) + Render(u)
  {
    RenderConcat(a, [u]);
    assert RenderAll([u]) == Render(u) + RenderAll([]);
    assert Render(u) + [] == Render(u);
  }

  /** A note without its keyword, if it has one. */
  function StripNote(text: string): string
  {
    if "NOTE" + [SP] <= text then text[5..] else text
  }

  /** A list follows these two codes and no others. */
  predicate HasList(code: nat)
  {
    code == TYPE_LIST || code == INFO_FOLLOWS
  }

  /** Fields without spaces or line breaks, three-digit codes outside 1xx, counts that fit. */
  ghost predicate IsWellFormed(u: Unit)
  {
    match u
    case Push(Delivered(m)) => IsField(m.typeName) && IsField(m.msgId) && IsField(m.origin) && LfFree(m.body)
    case Push(Dropped(n)) => IsField(n.typeName) && n.count < U64_LIMIT
    case Push(Noted(text)) => LF !in text && StripNote(text) == text
    case Status(code, text) => 200 <= code < 600 && !HasList(code) && LF !in text
    case Listing(code, text, lines) => HasList(code) && LF !in text && LfFree(lines)
  }

  /** Every line of `u`, its CR included, is within `max` octets. */
  ghost predicate WithinCap(u: Unit, max: nat)
  {
    match u
    case Push(Delivered(m)) => |StatusLine(MSG, MsgText(m))| < max && BlockWithin(m.body, max)
    case Push(Dropped(n)) => |StatusLine(DROP, DropText(n))| < max
    case Push(Noted(text)) => |StatusLine(NOTE, text)| < max
    case Status(code, text) => |StatusLine(code, text)| < max
    case Listing(code, text, lines) => |StatusLine(code, text)| < max && BlockWithin(lines, max)
  }

  ghost predicate BlockWithin(lines: seq<string>, max: nat)
  {
    |TERMINATOR| < max && forall l :: l in lines ==> |StuffLine(l)| < max
  }

  /** The status line of a three-digit code starts with exactly those digits. */
  lemma ThreeDigits(code: nat)
    requires 100 <= code < 1000
    ensures |Print(code, 10)| == 3 && ParseUnsigned(Print(code, 10), U16_LIMIT) == Some(code)
    ensures LF !in Print(code, 10)
  {
    ParsePrinted(code, U16_LIMIT);
    assert |Print(code / 10 / 10, 10)| == 1;
    assert |Print(code / 10, 10)| == 2;
  }

  lemma OneMore(before: seq<Unit>, units: seq<Unit>, u: Unit)
    ensures RenderAll(before + (units + [u])) == RenderAll(before + units) + Render(u)
  {
    hide RenderAll, Render;
    RenderSnoc(before + units, u);
    assert before + (units + [u]) == before + units + [u];
  }
}
