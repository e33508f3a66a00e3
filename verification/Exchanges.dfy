/** What a connection may answer: whole pushes, whole exchanges, and nothing in between. */
module Exchanges {
  import opened Text
  import opened Messages
  import opened Outbound
  import opened Lines
  import opened Framing
  import opened Ownership
  import opened Registries
  import opened Cluster
  import opened Replies
  import opened Intake
  import Commands
  import Utf8

  datatype Limits = Limits(commandLine: nat, bodyLine: nat, message: nat)

  /** One step of a connection's history: a push, a complete command exchange, or the exchange
      that ended the connection.  `taken` is the input consumed, `units` the output written, `sent` the
      frames given to the cluster, and `held` what the table held for the command's type each time the
      registry decided on it. */
  datatype Item =
    | Told(event: Event)
    | Exchange(taken: string, units: seq<Unit>, sent: seq<Frame>, held: seq<Option<TypeReg>>)
    | Broken(taken: string, units: seq<Unit>)

  const INVITE := Status(START_BODY, "enter message body; end with <CRLF>.<CRLF>")
  const LINE_TOO_LONG := Status(SYNTAX, "command line too long")
  const REFUSED_SIZE := Status(TOO_LARGE, "message too large")
  const MESSAGE_ACCEPTED := Status(ACCEPTED, "message accepted")

  function Denial(a: Authorization, t: string): Unit
    requires a != Authorized
  {
    if a == UnknownType then Status(UNKNOWN_TYPE, t + " not registered")
    else Status(KEY_MISMATCH, "authorization key mismatch")
  }

  /** The record held for `t`, if any. */
  function Held(types: Table, t: string): Option<TypeReg>
  {
    if t in types then Some(types[t]) else None
  }

  predicate Permits(held: Option<TypeReg>, key: string)
  {
    held.Some? && held.value.key == key
  }

  /** 430 for a type that nobody has registered, 441 for one registered under another key. */
  function Refusal(held: Option<TypeReg>, t: string): Unit
  {
    if held.None? then Status(UNKNOWN_TYPE, t + " not registered")
    else Status(KEY_MISMATCH, "authorization key mismatch")
  }

  /** The registry permits exactly what the record held permits, and is denied as that record calls for. */
  lemma DenialIsRefusal(types: Table, t: string, key: string)
    ensures var a, held := Authorize(types, t, key), Held(types, t);
            (a == Authorized <==> Permits(held, key)) && (a != Authorized ==> Denial(a, t) == Refusal(held, t))
  {
  }

  /** A command line is decoded, lossily, and then parsed as text. */
  function ParseLine(line: string): Commands.Parsed
  {
    Commands.Parse(Utf8.Decode(line))
  }

  // --- what can be put on a line --------------------------------------------------------------------

  /** A message whose header the client can take apart, if the daemon's own id can be put in one. */
  ghost predicate MessageFits(m: Message, daemon: string)
  {
    && IsField(m.typeName) && LfFree(m.body)
    && ((IsField(m.origin) && IsField(m.msgId)) || (m.origin == daemon && exists n: nat :: m.msgId == MsgId(daemon, n)))
  }

  lemma MsgIdIsField(daemon: string, n: nat)
    requires IsField(daemon)
    ensures IsField(MsgId(daemon, n))
  {
    hide Print;
    PrintHasNo(n, 16, SP);
    PrintHasNo(n, 16, LF);
  }

  ghost predicate EventFits(ev: Event, daemon: string)
  {
    match ev
    case Delivered(m) => MessageFits(m, daemon)
    case Dropped(n) => IsField(n.typeName)
    case Noted(_) => false
  }

  ghost predicate TypesFit(types: Table)
  {
    forall t :: t in types ==> IsField(t)
  }

  /** Everything a queue was ever offered, still holds, or counts. */
  ghost predicate QueueFits(q: Queue, daemon: string)
  {
    && (forall m :: m in q.offered || m in q.items || m in q.written ==> MessageFits(m, daemon))
    && (forall t :: t in q.drops ==> IsField(t))
    && (forall n :: n in q.noticed ==> IsField(n.typeName))
  }

  lemma OfferFits(q: Queue, m: Message, daemon: string)
    requires QueueFits(q, daemon) && MessageFits(m, daemon)
    ensures QueueFits(Offer(q, m), daemon)
  {
    hide MessageFits;
    NameFits(m, daemon);
  }

  lemma NameFits(m: Message, daemon: string)
    requires MessageFits(m, daemon)
    ensures IsField(m.typeName)
  {
  }

  lemma TakeFits(q: Queue, daemon: string)
    requires QueueFits(q, daemon) && q.items != []
    ensures QueueFits(Take(q), daemon) && MessageFits(q.items[0], daemon)
  {
    hide MessageFits;
  }

  lemma {:induction false} DrainsFits(notices: seq<Notice>, drops: Drops)
    requires Drains(notices, drops) && forall t :: t in drops ==> IsField(t)
    ensures forall n :: n in notices ==> IsField(n.typeName)
    decreases |notices|
  {
    if notices == [] {
    } else {
      DrainsFits(notices[..|notices| - 1], drops - {notices[|notices| - 1].typeName});
    }
  }

  lemma FlushFits(q: Queue, notices: seq<Notice>, daemon: string)
    requires QueueFits(q, daemon) && Drains(notices, q.drops)
    ensures QueueFits(Flush(q, notices), daemon)
  {
    hide MessageFits;
    DrainsFits(notices, q.drops);
  }

  lemma ValidIsField(s: string)
    requires Commands.IsValidType(s) || Commands.IsValidKey(s)
    ensures IsField(s)
  {
    if Commands.IsValidType(s) {
      assert forall c :: c in s ==> Commands.IsTchar(c);
    }
  }

  /** The one reply to a command other than REGISTER and PUBLISH. */
  ghost predicate Fits(cmd: Commands.Command, u: Unit)
  {
    match cmd
    case Quit => u == Status(CLOSING, "closing connection")
    case Capabilities => u.Listing? && u.code == INFO_FOLLOWS && LF !in u.text && LfFree(u.lines)
    case Help => u.Listing? && u.code == INFO_FOLLOWS && LF !in u.text && LfFree(u.lines)
    case ListTypes => u.Listing? && u.code == TYPE_LIST && LF !in u.text && LfFree(u.lines)
    case Register(_, _) => false
    case Subscribe(t) => u == Status(SUBSCRIBED, "subscribed " + t)
    case Unsubscribe(t) => u == Status(UNSUBSCRIBED, "unsubscribed " + t)
    case Publish(_, _) => false
  }

  /** A REGISTER is answered by what was held: a free type is claimed for this daemon, which goes to the
      cluster, the same key is confirmed, another one is refused; the last two stay here. */
  predicate RegisterAnswered(daemon: string, t: string, key: string, held: Option<TypeReg>, u: Unit, sent: seq<Frame>)
  {
    match held
    case None =>
      && u == Status(REGISTERED, t + " registered") && |sent| == 1
      && sent[0].Rreg? && sent[0].typeName == t && sent[0].reg.key == key && sent[0].reg.origin == daemon
    case Some(reg) =>
      && sent == []
      && u == if reg.key == key then Status(REGISTERED, t + " registered")
              else Status(ALREADY_REGISTERED, t + " already registered")
  }

  /** A PUBLISH is denied before its body exactly if the record held does not permit it, or invited and
      then given one verdict on its body. */
  ghost predicate PublishAnswered(daemon: string, t: string, key: string, body: string, units: seq<Unit>,
                                  sent: seq<Frame>, held: seq<Option<TypeReg>>, lim: Limits)
  {
    && held != []
    && if !Permits(held[0], key) then body == [] && sent == [] && units == [Refusal(held[0], t)] && |held| == 1
       else |units| == 2 && units[0] == INVITE && Verdict(daemon, t, key, body, units[1], sent, held[1..], lim)
  }

  /** A body that is too large or contains an over-long line is refused.  One that was a whole block within
      the limit is judged by the record held then: accepted and forwarded line for line exactly if that
      permits it, and else denied as before. */
  ghost predicate Verdict(daemon: string, t: string, key: string, body: string, u: Unit, sent: seq<Frame>,
                          held: seq<Option<TypeReg>>, lim: Limits)
  {
    match SplitBlock(body)
    case None => u == REFUSED_SIZE && sent == [] && held == []
    case Some((raw, after)) =>
      && after == []
      && if BodySize(UnstuffAll(raw)) > lim.message || lim.bodyLine == 0 then
           u == REFUSED_SIZE && sent == [] && held == []
         else
           && |held| == 1
           && if Permits(held[0], key) then
                u == MESSAGE_ACCEPTED && |sent| == 1 && Carries(sent[0], daemon, t, UnstuffAll(raw))
              else u == Refusal(held[0], t) && sent == []
  }

  predicate Carries(f: Frame, daemon: string, t: string, lines: seq<string>)
  {
    f.Feed? && f.msg.typeName == t && f.msg.origin == daemon && f.msg.body == lines
  }

  ghost predicate Answered(daemon: string, parsed: Commands.Parsed, body: string, units: seq<Unit>,
                           sent: seq<Frame>, held: seq<Option<TypeReg>>, lim: Limits)
  {
    if parsed.Err? then body == [] && sent == [] && held == [] && units == [Status(parsed.code, parsed.reason)]
    else match parsed.cmd
      case Publish(t, key) => PublishAnswered(daemon, t, key, body, units, sent, held, lim)
      case Register(t, key) =>
        body == [] && |units| == 1 && |held| == 1 && RegisterAnswered(daemon, t, key, held[0], units[0], sent)
      case _ => body == [] && sent == [] && held == [] && |units| == 1 && Fits(parsed.cmd, units[0])
  }

  ghost predicate LegalItem(x: Item, daemon: string, lim: Limits)
  {
    match x
    case Told(ev) => EventFits(ev, daemon)
    case Exchange(taken, units, sent, held) =>
      && NextLine(taken).Some? && |NextLine(taken).value.0| <= lim.commandLine
      && Answered(daemon, ParseLine(NextLine(taken).value.0), NextLine(taken).value.1, units, sent, held, lim)
    case Broken(taken, units) =>
      || units == [LINE_TOO_LONG]
      || (units == [INVITE] && NextLine(taken).Some? && Unterminated(NextLine(taken).value.1, lim.bodyLine))
  }

  /** Every completed exchange ends in exactly one final reply: one unit, or 354 and one unit. */
  lemma OneFinalReply(x: Item, daemon: string, lim: Limits)
    requires LegalItem(x, daemon, lim) && x.Exchange?
    ensures forall u :: u in x.units ==> !u.Push?
    ensures |x.units| == 1 || (|x.units| == 2 && x.units[0] == INVITE)
    ensures x.units[|x.units| - 1] != INVITE
  {
    hide ParseLine, NextLine, SplitBlock;
    var parsed := ParseLine(NextLine(x.taken).value.0);
    if parsed.Err? {
      ErrorIsNotInvite(NextLine(x.taken).value.0);
    }
  }

  lemma ErrorIsNotInvite(line: string)
    requires ParseLine(line).Err?
    ensures ParseLine(line).code != START_BODY
  {
    Commands.ParsedIsValid(Utf8.Decode(line));
  }

  // --- a whole history ----------------------------------------------------------------------------

  function ItemUnits(x: Item): seq<Unit>
  {
    match x
    case Told(ev) => [Unit.Push(ev)]
    case Exchange(_, units, _, _) => units
    case Broken(_, units) => units
  }

  function UnitsOf(log: seq<Item>): seq<Unit>
  {
    if log == [] then [] else UnitsOf(log[..|log| - 1]) + ItemUnits(log[|log| - 1])
  }

  function TakenIn(log: seq<Item>): string
  {
    if log == [] then []
    else
      var x := log[|log| - 1];
      TakenIn(log[..|log| - 1]) + if x.Told? then [] else x.taken
  }

  function SentIn(log: seq<Item>): seq<Frame>
  {
    if log == [] then []
    else
      var x := log[|log| - 1];
      SentIn(log[..|log| - 1]) + if x.Exchange? then x.sent else []
  }

  /** The messages and the notices pushed, in order. */
  function MessagesIn(log: seq<Item>): seq<Message>
  {
    if log == [] then []
    else
      var x := log[|log| - 1];
      MessagesIn(log[..|log| - 1]) + if x.Told? && x.event.Delivered? then [x.event.msg] else []
  }

  function NoticesIn(log: seq<Item>): seq<Notice>
  {
    if log == [] then []
    else
      var x := log[|log| - 1];
      NoticesIn(log[..|log| - 1]) + if x.Told? && x.event.Dropped? then [x.event.notice] else []
  }

  ghost predicate LegalLog(log: seq<Item>, daemon: string, lim: Limits)
  {
    && (forall x :: x in log ==> LegalItem(x, daemon, lim))
    && (forall i :: 0 <= i < |log| - 1 ==> !log[i].Broken?)
  }

  predicate Unbroken(log: seq<Item>)
  {
    forall x :: x in log ==> !x.Broken?
  }

  lemma LogSnoc(log: seq<Item>, x: Item)
    ensures UnitsOf(log + [x]) == UnitsOf(log) + ItemUnits(x)
    ensures TakenIn(log + [x]) == TakenIn(log) + if x.Told? then [] else x.taken
    ensures SentIn(log + [x]) == SentIn(log) + if x.Exchange? then x.sent else []
    ensures MessagesIn(log + [x]) == MessagesIn(log) + if x.Told? && x.event.Delivered? then [x.event.msg] else []
    ensures NoticesIn(log + [x]) == NoticesIn(log) + if x.Told? && x.event.Dropped? then [x.event.notice] else []
  {
    assert (log + [x])[..|log|] == log;
  }

  lemma LegalSnoc(log: seq<Item>, x: Item, daemon: string, lim: Limits)
    requires LegalLog(log, daemon, lim) && Unbroken(log) && LegalItem(x, daemon, lim)
    ensures LegalLog(log + [x], daemon, lim)
    ensures !x.Broken? ==> Unbroken(log + [x])
  {
    hide LegalItem;
    assert forall i :: 0 <= i < |log| ==> log[i] in log;
  }

  // --- one answer to each command -----------------------------------------------------------------------

  /** How many final replies there are: units that are neither pushes nor the invitation. */
  function Finals(us: seq<Unit>): nat
  {
    if us == [] then 0
    else
      var u := us[|us| - 1];
      Finals(us[..|us| - 1]) + if u.Push? || u == INVITE then 0 else 1
  }

  function Completed(log: seq<Item>): nat
  {
    if log == [] then 0 else Completed(log[..|log| - 1]) + if log[|log| - 1].Exchange? then 1 else 0
  }

  /** The unit after an invitation is the final reply to the same command, never a push. */
  predicate InvitesAnswered(us: seq<Unit>)
  {
    forall i :: 0 <= i < |us| && us[i] == INVITE ==> i + 1 < |us| && !us[i + 1].Push? && us[i + 1] != INVITE
  }

  lemma FinalsSnoc(us: seq<Unit>, u: Unit)
    ensures Finals(us + [u]) == Finals(us) + if u.Push? || u == INVITE then 0 else 1
  {
    assert (us + [u])[..|us|] == us;
  }

  /** In the output of a connection, command exchanges and pushes alternate whole: there are exactly as many
      final replies as completed commands, and nothing comes between an invitation and its final reply. */
  lemma {:induction false} EveryCommandAnsweredOnce(log: seq<Item>, daemon: string, lim: Limits)
    requires LegalLog(log, daemon, lim) && Unbroken(log)
    ensures Finals(UnitsOf(log)) == Completed(log) && InvitesAnswered(UnitsOf(log))
  {
    hide LegalItem, Finals, InvitesAnswered;
    if log == [] {
      NothingToAnswer();
    } else {
      var init, x := log[..|log| - 1], log[|log| - 1];
      assert x in log && forall y :: y in init ==> y in log;
      EveryCommandAnsweredOnce(init, daemon, lim);
      if x.Exchange? {
        OneFinalReply(x, daemon, lim);
        ExchangeAnswers(UnitsOf(init), x.units);
      } else {
        PushAnswersNothing(UnitsOf(init), Unit.Push(x.event));
      }
    }
  }

  lemma NothingToAnswer()
    ensures Finals([]) == 0 && InvitesAnswered([])
  {
  }

  lemma PushAnswersNothing(before: seq<Unit>, push: Unit)
    requires InvitesAnswered(before) && push.Push?
    ensures Finals(before + [push]) == Finals(before) && InvitesAnswered(before + [push])
  {
    FinalsSnoc(before, push);
  }

  lemma ExchangeAnswers(before: seq<Unit>, units: seq<Unit>)
    requires InvitesAnswered(before) && (forall u :: u in units ==> !u.Push?)
    requires |units| == 1 || (|units| == 2 && units[0] == INVITE)
    requires units[|units| - 1] != INVITE
    ensures Finals(before + units) == Finals(before) + 1 && InvitesAnswered(before + units)
  {
    hide Finals;
    if |units| == 1 {
      assert units == [units[0]];
      FinalsSnoc(before, units[0]);
    } else {
      FinalsSnoc(before, INVITE);
      FinalsSnoc(before + [INVITE], units[1]);
      assert before + [INVITE] + [units[1]] == before + units;
    }
  }

  /** `taken` is one line, within the limit, with its line end. */
  ghost predicate IsCommand(taken: string, line: string, lim: Limits)
  {
    IsLine(taken, line) && |line| <= lim.commandLine
  }

  // --- answers that are legal ----------------------------------------------------------------------------

  lemma PushIsLegal(log: seq<Item>, ev: Event, daemon: string, lim: Limits)
    requires LegalLog(log, daemon, lim) && Unbroken(log) && EventFits(ev, daemon)
    ensures LegalLog(log + [Told(ev)], daemon, lim) && Unbroken(log + [Told(ev)])
    ensures RenderAll(UnitsOf(log + [Told(ev)])) == RenderAll(UnitsOf(log)) + Render(Unit.Push(ev))
  {
    hide RenderAll, LegalLog;
    LogSnoc(log, Told(ev));
    LegalSnoc(log, Told(ev), daemon, lim);
    RenderSnoc(UnitsOf(log), Unit.Push(ev));
  }

  /** An exchange after which the connection closes. */
  predicate IsLast(x: Item)
  {
    x.Broken? || (x.Exchange? && x.units == [Status(CLOSING, "closing connection")])
  }

  lemma BreakIsLast(x: Item)
    requires x.Broken?
    ensures IsLast(x)
  {
  }

  /** A completed exchange closes the connection only with 221. */
  lemma EndsOrNot(x: Item)
    requires x.Exchange? && x.units != []
    ensures x.units[0] == Status(CLOSING, "closing connection") && |x.units| == 1 ==> IsLast(x)
    ensures x.units[0] != Status(CLOSING, "closing connection") ==> !IsLast(x)
  {
  }

  predicate NoneLast(log: seq<Item>)
  {
    forall i :: 0 <= i < |log| ==> !IsLast(log[i])
  }

  /** Nothing follows an exchange that closes the connection. */
  predicate OnlyLastIsLast(log: seq<Item>)
  {
    forall i :: 0 <= i < |log| - 1 ==> !IsLast(log[i])
  }

  lemma LastStaysLast(before: seq<Item>, log: seq<Item>)
    requires NoneLast(before) && before <= log && forall i :: |before| <= i < |log| - 1 ==> log[i].Told?
    ensures OnlyLastIsLast(log) && (NoneLast(log[|before|..]) ==> NoneLast(log))
  {
    hide IsLast;
    forall i | 0 <= i < |log| - 1 ensures !IsLast(log[i]) {
      if i < |before| {
        assert log[i] == before[i];
      } else {
        ToldIsNotLast(log[i]);
      }
    }
    if NoneLast(log[|before|..]) {
      forall i | 0 <= i < |log| ensures !IsLast(log[i]) {
        if i < |before| {
          assert log[i] == before[i];
        } else {
          assert log[i] == log[|before|..][i - |before|];
        }
      }
    }
  }

  /** Notices and then at most one further item, which is not one that closes the connection if it is open. */
  lemma NoticesAreNotLast(before: seq<Item>, flushed: seq<Item>, log: seq<Item>)
    requires before <= flushed <= log && |log| <= |flushed| + 1
    requires forall i :: |before| <= i < |flushed| ==> flushed[i].Told?
    ensures forall i :: |before| <= i < |log| - 1 ==> log[i].Told?
    ensures (|log| > |flushed| ==> !IsLast(log[|flushed|])) ==> NoneLast(log[|before|..])
  {
    hide IsLast;
    if |log| > |flushed| ==> !IsLast(log[|flushed|]) {
      forall i | 0 <= i < |log| - |before| ensures !IsLast(log[|before|..][i]) {
        if |before| + i < |flushed| {
          assert log[|before| + i] == flushed[|before| + i];
          ToldIsNotLast(log[|before| + i]);
        }
      }
    }
  }

  lemma ToldIsNotLast(x: Item)
    requires x.Told?
    ensures !IsLast(x)
  {
  }

  lemma {:induction false} AllTold(notices: seq<Notice>)
    ensures |ToldOf(notices)| == |notices| && forall x :: x in ToldOf(notices) ==> x.Told?
  {
    if notices == [] {
    } else {
      AllTold(notices[..|notices| - 1]);
    }
  }

  function ToldOf(notices: seq<Notice>): seq<Item>
  {
    if notices == [] then [] else ToldOf(notices[..|notices| - 1]) + [Told(Dropped(notices[|notices| - 1]))]
  }

  predicate IsPlain(cmd: Commands.Command)
  {
    cmd.Quit? || cmd.Capabilities? || cmd.Help? || cmd.ListTypes?
  }

  function RegisterReply(t: string, r: Registration): Unit
  {
    if r.Registered? then Status(REGISTERED, t + " registered")
    else Status(ALREADY_REGISTERED, t + " already registered")
  }

  lemma RegisterReplyIsStatus(t: string, r: Registration)
    ensures RegisterReply(t, r).Status?
  {
  }

  /** Only a new claim goes to the cluster. */
  function Propagated(t: string, r: Registration): seq<Frame>
  {
    if r.Registered? && r.changed then [Rreg(t, r.reg)] else []
  }

  /** The frames handed to the cluster are the jobs that the cluster machine leaves at this daemon. */
  lemma ClaimIsJob(s: State, d: string, t: string, key: string, now: nat)
    requires d in s.nodes
    ensures var reg := s.nodes[d].reg;
            var s' := RegisterAt(s, d, t, key, now);
            && s'.jobs == s.jobs + (if t in reg.types then []
                                    else [Job(d, Rreg(t, TypeReg(key, reg.id, now)), None, true)])
            && s'.jobs == s.jobs + JobsFor(d, Propagated(t, RegisterLocal(reg.types, reg.id, t, key, now).0))
  {
  }

  function JobsFor(d: string, sent: seq<Frame>): seq<Job>
  {
    seq(|sent|, i requires 0 <= i < |sent| => Job(d, sent[i], None, true))
  }

  /** What the registry decides on a REGISTER, in terms of what was held. */
  lemma ClaimDecided(types: Table, daemon: string, t: string, key: string, now: nat)
    ensures var r := RegisterLocal(types, daemon, t, key, now).0;
            && Propagated(t, r) == (if t in types then [] else [Rreg(t, TypeReg(key, daemon, now))])
            && RegisterAnswered(daemon, t, key, Held(types, t), RegisterReply(t, r), Propagated(t, r))
  {
  }

  lemma RegisterIsLegal(t: string, key: string, taken: string, line: string, held: Option<TypeReg>, u: Unit,
                        sent: seq<Frame>, daemon: string, lim: Limits)
    requires IsCommand(taken, line, lim) && ParseLine(line) == Commands.Ok(Commands.Register(t, key))
    requires RegisterAnswered(daemon, t, key, held, u, sent)
    ensures LegalItem(Exchange(taken, [u], sent, [held]), daemon, lim)
  {
    hide ParseLine, NextLine, RegisterAnswered;
    LineThen(taken, line, []);
  }

  /** `u` is a right answer to the line, when that calls for one reply and propagates nothing. */
  ghost predicate IsReply(parsed: Commands.Parsed, u: Unit)
  {
    if parsed.Err? then u == Status(parsed.code, parsed.reason) else Fits(parsed.cmd, u)
  }

  lemma ReplyIsLegal(taken: string, line: string, u: Unit, daemon: string, lim: Limits)
    requires IsCommand(taken, line, lim) && IsReply(ParseLine(line), u)
    ensures LegalItem(Exchange(taken, [u], [], []), daemon, lim)
  {
    hide ParseLine, NextLine;
    LineThen(taken, line, []);
  }

  lemma LineThen(taken: string, line: string, block: string)
    requires IsLine(taken, line)
    ensures NextLine(taken + block) == Some((line, block)) && NextLine(taken) == Some((line, []))
  {
    assert taken + [] == taken && NextLine(taken + []) == Some((line, []));
  }

  lemma DeniedIsLegal(t: string, key: string, taken: string, line: string, held: Option<TypeReg>,
                      daemon: string, lim: Limits)
    requires IsCommand(taken, line, lim) && ParseLine(line) == Commands.Ok(Commands.Publish(t, key))
    requires !Permits(held, key)
    ensures LegalItem(Exchange(taken, [Refusal(held, t)], [], [held]), daemon, lim)
  {
    hide ParseLine, NextLine;
    LineThen(taken, line, []);
  }

  lemma BrokenIsLegal(taken: string, line: string, block: string, got: BodyPull, daemon: string, lim: Limits)
    requires IsCommand(taken, line, lim) && IsTakenBlock(block, got, lim.bodyLine) && got.Eof?
    ensures LegalItem(Broken(taken + block, [INVITE]), daemon, lim)
  {
    hide NextLine, SplitBlock;
    LineThen(taken, line, block);
  }

  lemma RefusedIsLegal(t: string, key: string, taken: string, line: string, block: string, got: BodyPull,
                       held: Option<TypeReg>, daemon: string, lim: Limits)
    requires IsCommand(taken, line, lim) && ParseLine(line) == Commands.Ok(Commands.Publish(t, key))
    requires IsTakenBlock(block, got, lim.bodyLine) && (got.Whole? ==> Judged(got.raw, lim.message) == None)
    requires Permits(held, key)
    ensures LegalItem(Exchange(taken + block, [INVITE, REFUSED_SIZE], [], [held]), daemon, lim)
  {
    hide ParseLine, NextLine, SplitBlock, UnstuffAll, BodySize;
    LineThen(taken, line, block);
    assert Verdict(daemon, t, key, block, REFUSED_SIZE, [], [held][1..], lim);
  }

  lemma AcceptedIsLegal(t: string, key: string, taken: string, line: string, block: string, got: BodyPull, m: Message,
                        held: Option<TypeReg>, later: Option<TypeReg>, daemon: string, lim: Limits)
    requires IsCommand(taken, line, lim) && ParseLine(line) == Commands.Ok(Commands.Publish(t, key))
    requires IsTakenBlock(block, got, lim.bodyLine) && got.Whole? && Judged(got.raw, lim.message) == Some(m.body)
    requires m.typeName == t && m.origin == daemon && Permits(held, key) && Permits(later, key)
    ensures LegalItem(Exchange(taken + block, [INVITE, MESSAGE_ACCEPTED], [Feed(m)], [held, later]), daemon, lim)
  {
    hide ParseLine, NextLine, SplitBlock, UnstuffAll, BodySize;
    LineThen(taken, line, block);
    assert [held, later][1..] == [later];
    assert Verdict(daemon, t, key, block, MESSAGE_ACCEPTED, [Feed(m)], [later], lim);
  }

  lemma LateDenialIsLegal(t: string, key: string, taken: string, line: string, block: string, got: BodyPull,
                          held: Option<TypeReg>, later: Option<TypeReg>, daemon: string, lim: Limits)
    requires IsCommand(taken, line, lim) && ParseLine(line) == Commands.Ok(Commands.Publish(t, key))
    requires IsTakenBlock(block, got, lim.bodyLine) && got.Whole?
    requires Judged(got.raw, lim.message).Some? && Permits(held, key) && !Permits(later, key)
    ensures LegalItem(Exchange(taken + block, [INVITE, Refusal(later, t)], [], [held, later]), daemon, lim)
  {
    hide ParseLine, NextLine, SplitBlock, UnstuffAll, BodySize;
    LineThen(taken, line, block);
    assert [held, later][1..] == [later];
    assert Verdict(daemon, t, key, block, Refusal(later, t), [], [later], lim);
  }

  function Greeting(daemon: string): string
  {
    StatusLine(SERVICE_READY, daemon + " macro-bus MBP/1.0 ready") + CRLF
  }
}
