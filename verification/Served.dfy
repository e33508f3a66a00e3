/** A connection's whole output, read by a client. */
module Served {
  import opened Text
  import opened Messages
  import opened Lines
  import opened Framing
  import opened Ownership
  import opened Outbound
  import opened Registries
  import opened Cluster
  import opened Replies
  import opened Intake
  import opened Exchanges
  import Clients
  import Commands
  import Connections
  import Demux
  import Utf8

  // --- every unit can be parsed --------------------------------------------------------------------------

  /** Every unit of a legal exchange is well-formed. */
  lemma AnswersAreWellFormed(x: Item, daemon: string, lim: Limits, u: Unit)
    requires LegalItem(x, daemon, lim) && x.Exchange? && u in x.units
    ensures IsWellFormed(u)
  {
    hide ParseLine, NextLine, SplitBlock, BodySize, PublishAnswered, RegisterAnswered, Fits, IsWellFormed;
    var line := NextLine(x.taken).value.0;
    ParsedNamesHaveNoLf(line);
    var p := ParseLine(line);
    if p.Err? {
      ErrorIsWellFormed(p);
    } else if p.cmd.Publish? {
      PublishUnits(daemon, p.cmd.typeName, p.cmd.key, NextLine(x.taken).value.1, x.units, x.sent, x.held, lim, u);
    } else if p.cmd.Register? {
      RegisterUnit(daemon, p.cmd.typeName, p.cmd.key, x.held[0], u, x.sent);
    } else {
      ReplyIsWellFormed(p.cmd, u);
    }
  }

  lemma ErrorIsWellFormed(p: Commands.Parsed)
    requires p.Err? && 500 <= p.code < 600 && LF !in p.reason
    ensures IsWellFormed(Status(p.code, p.reason))
  {
  }

  lemma ReplyIsWellFormed(cmd: Commands.Command, u: Unit)
    requires Fits(cmd, u)
    requires cmd.Register? || cmd.Publish? || cmd.Subscribe? || cmd.Unsubscribe? ==> LF !in cmd.typeName
    ensures IsWellFormed(u)
  {
    if u.Status? {
      hide IsWellFormed, Commands.OneLine;
      ReplyTexts();
      assert Commands.OneLine([]) by { NothingIsOneLine(); }
      if cmd.Subscribe? {
        NameIsOneLine(cmd.typeName);
        StatusWith(SUBSCRIBED, "subscribed ", cmd.typeName);
      } else if cmd.Unsubscribe? {
        NameIsOneLine(cmd.typeName);
        StatusWith(UNSUBSCRIBED, "unsubscribed ", cmd.typeName);
      } else {
        StatusWith(CLOSING, "closing connection", []);
        assert "closing connection" + [] == "closing connection";
      }
    }
  }

  lemma ReplyTexts()
    ensures Commands.OneLine("closing connection") && Commands.OneLine(" registered")
    ensures Commands.OneLine(" already registered")
    ensures Commands.OneLine("subscribed ") && Commands.OneLine("unsubscribed ")
  {
  }

  lemma NothingIsOneLine()
    ensures Commands.OneLine([])
  {
  }

  lemma NameIsOneLine(t: string)
    requires LF !in t
    ensures Commands.OneLine(t)
  {
  }

  lemma StatusWith(code: nat, a: string, b: string)
    requires 200 <= code < 600 && !HasList(code) && Commands.OneLine(a) && Commands.OneLine(b)
    ensures IsWellFormed(Status(code, a + b))
  {
  }

  lemma RegisterUnit(daemon: string, t: string, key: string, held: Option<TypeReg>, u: Unit, sent: seq<Frame>)
    requires RegisterAnswered(daemon, t, key, held, u, sent) && LF !in t
    ensures IsWellFormed(u)
  {
    hide IsWellFormed, Commands.OneLine;
    ReplyTexts();
    NameIsOneLine(t);
    StatusWith(REGISTERED, t, " registered");
    StatusWith(ALREADY_REGISTERED, t, " already registered");
  }

  lemma PublishUnits(daemon: string, t: string, key: string, body: string, units: seq<Unit>, sent: seq<Frame>,
                     held: seq<Option<TypeReg>>, lim: Limits, u: Unit)
    requires PublishAnswered(daemon, t, key, body, units, sent, held, lim) && u in units && LF !in t
    ensures IsWellFormed(u)
  {
    hide SplitBlock, BodySize, UnstuffAll, INVITE, REFUSED_SIZE, MESSAGE_ACCEPTED, Refusal, IsWellFormed;
    VerdictsAreWellFormed();
    RefusalIsWellFormed(held[0], t);
    if |held| > 1 {
      RefusalIsWellFormed(held[1], t);
    }
  }

  lemma VerdictsAreWellFormed()
    ensures IsWellFormed(INVITE) && IsWellFormed(REFUSED_SIZE) && IsWellFormed(MESSAGE_ACCEPTED)
  {
    hide IsWellFormed;
    InviteIsWellFormed();
    SizeIsWellFormed();
    AcceptanceIsWellFormed();
  }

  lemma InviteIsWellFormed()
    ensures IsWellFormed(INVITE)
  {
  }

  lemma SizeIsWellFormed()
    ensures IsWellFormed(REFUSED_SIZE)
  {
  }

  lemma AcceptanceIsWellFormed()
    ensures IsWellFormed(MESSAGE_ACCEPTED)
  {
  }

  lemma RefusalIsWellFormed(held: Option<TypeReg>, t: string)
    requires LF !in t
    ensures IsWellFormed(Refusal(held, t))
  {
    if held.None? {
      assert LF !in " not registered";
    } else {
      assert LF !in "authorization key mismatch";
    }
  }

  lemma ParsedNamesHaveNoLf(line: string)
    ensures var p := ParseLine(line);
            && (p.Err? ==> 500 <= p.code < 600 && LF !in p.reason)
            && (p.Ok? && (p.cmd.Register? || p.cmd.Publish? || p.cmd.Subscribe? || p.cmd.Unsubscribe?) ==>
                  LF !in p.cmd.typeName)
  {
    hide Commands.Parse, Commands.IsValidType;
    Commands.ParsedIsValid(Utf8.Decode(line));
    Commands.ReasonIsOneLine(Utf8.Decode(line));
    var p := ParseLine(line);
    if p.Ok? && (p.cmd.Register? || p.cmd.Publish? || p.cmd.Subscribe? || p.cmd.Unsubscribe?) {
      ValidHasNoLf(p.cmd.typeName);
    }
  }

  lemma ValidHasNoLf(t: string)
    requires Commands.IsValidType(t)
    ensures LF !in t
  {
    assert forall c :: c in t ==> Commands.IsTchar(c) && c != LF;
  }

  // --- counters ------------------------------------------------------------------------------------------------

  lemma {:induction false} CountAtMost(ms: seq<Message>, t: string)
    ensures CountType(ms, t) <= |ms|
  {
    if ms == [] {
    } else {
      CountAtMost(ms[..|ms| - 1], t);
    }
  }

  lemma {:induction false} NoticedAtLeast(notices: seq<Notice>, n: Notice)
    requires n in notices
    ensures n.count <= NoticedCount(notices, n.typeName)
  {
    var init, last := notices[..|notices| - 1], notices[|notices| - 1];
    if n != last {
      NoticedAtLeast(init, n);
    }
  }

  /** No notice counts more messages than were offered. */
  lemma NoticeIsBounded(q: Queue, n: Notice)
    requires Conserved(q) && n in q.noticed
    ensures n.count <= |q.offered|
  {
    hide Subsequence;
    NoticedAtLeast(q.noticed, n);
    CountAtMost(q.offered, n.typeName);
  }

  // --- the whole history can be read --------------------------------------------------------------------------

  /** Every notice in the history counts fewer than 2^64. */
  ghost predicate CountsFit(log: seq<Item>)
  {
    forall n :: n in NoticesIn(log) ==> n.count < U64_LIMIT
  }

  lemma {:induction false} DroppedIsNotice(log: seq<Item>, n: Notice)
    requires Told(Dropped(n)) in log
    ensures n in NoticesIn(log)
  {
    if log[|log| - 1] != Told(Dropped(n)) {
      DroppedIsNotice(log[..|log| - 1], n);
    }
  }

  lemma EventIsWellFormed(ev: Event, daemon: string)
    requires EventFits(ev, daemon) && IsField(daemon) && (ev.Dropped? ==> ev.notice.count < U64_LIMIT)
    ensures IsWellFormed(Unit.Push(ev))
  {
    hide IsField, MsgId;
    if ev.Delivered? && ev.msg.origin == daemon && exists n: nat :: ev.msg.msgId == MsgId(daemon, n) {
      var n: nat :| ev.msg.msgId == MsgId(daemon, n);
      MsgIdIsField(daemon, n);
    }
  }

  lemma BrokenIsWellFormed(x: Item, daemon: string, lim: Limits, u: Unit)
    requires LegalItem(x, daemon, lim) && x.Broken? && u in x.units
    ensures IsWellFormed(u)
  {
    hide NextLine, Unterminated, IsWellFormed;
    InviteIsWellFormed();
    TooLongIsWellFormed();
  }

  lemma TooLongIsWellFormed()
    ensures IsWellFormed(LINE_TOO_LONG)
  {
  }

  lemma ItemIsWellFormed(x: Item, daemon: string, lim: Limits, u: Unit)
    requires LegalItem(x, daemon, lim) && IsField(daemon) && u in ItemUnits(x)
    requires x.Told? && x.event.Dropped? ==> x.event.notice.count < U64_LIMIT
    ensures IsWellFormed(u)
  {
    hide IsWellFormed;
    if x.Exchange? {
      hide LegalItem;
      AnswersAreWellFormed(x, daemon, lim, u);
    } else if x.Broken? {
      hide LegalItem;
      BrokenIsWellFormed(x, daemon, lim, u);
    } else {
      EventIsWellFormed(x.event, daemon);
    }
  }

  lemma {:induction false} UnitComesFrom(log: seq<Item>, u: Unit) returns (x: Item)
    requires u in UnitsOf(log)
    ensures x in log && u in ItemUnits(x)
  {
    hide ItemUnits;
    var init, last := log[..|log| - 1], log[|log| - 1];
    if u in ItemUnits(last) {
      x := last;
    } else {
      x := UnitComesFrom(init, u);
    }
  }

  lemma HistoryIsWellFormed(log: seq<Item>, daemon: string, lim: Limits, u: Unit)
    requires LegalLog(log, daemon, lim) && IsField(daemon) && CountsFit(log) && u in UnitsOf(log)
    ensures IsWellFormed(u)
  {
    hide LegalItem, IsWellFormed, ItemUnits, UnitsOf, NoticesIn;
    var x := UnitComesFrom(log, u);
    if x.Told? && x.event.Dropped? {
      DroppedIsNotice(log, x.event.notice);
    }
    ItemIsWellFormed(x, daemon, lim, u);
  }

  /** The client reads the greeting first. */
  lemma GreetingIsRead(daemon: string, rest: string, cap: nat)
    requires LF !in daemon && |Greeting(daemon)| <= cap
    ensures Clients.ClientLine(Greeting(daemon) + rest, cap) == Clients.Got(GreetingLine(daemon), rest)
  {
    var text := daemon + " macro-bus MBP/1.0 ready";
    assert LF !in " macro-bus MBP/1.0 ready";
    Clients.SplitStatusOf(SERVICE_READY, text);
    Clients.ClientLineOf(StatusLine(SERVICE_READY, text), rest, cap);
  }

  function GreetingLine(daemon: string): string
  {
    StatusLine(SERVICE_READY, daemon + " macro-bus MBP/1.0 ready")
  }

  /** What a connection wrote in its whole life, from the greeting on: a client whose line limit suffices
      reads the greeting, and then, waiting once for every reply and otherwise polling, gets each reply
      in order and every push exactly once, in the order they were written. */
  lemma ClientFollowsServer(conn: Connections.Conn, cap: nat, ops: seq<Demux.Op>)
    returns (done: seq<Unit>, left: seq<Unit>)
    requires conn.Kept() && Connections.Sound(conn.handle.State(), conn.registry.daemonId)
    requires IsField(conn.registry.daemonId) && |conn.handle.offered| < U64_LIMIT
    requires |Greeting(conn.registry.daemonId)| <= cap && forall u :: u in UnitsOf(conn.log) ==> WithinCap(u, cap)
    requires Demux.Legal(UnitsOf(conn.log), 0, ops)
    ensures UnitsOf(conn.log) == done + left
    ensures var greeting := Clients.ClientLine(conn.out, cap);
            && greeting.Got? && greeting.value == GreetingLine(conn.registry.daemonId)
            && var c := Demux.RunOps(Demux.Session(greeting.rest, [], [], [], false), ops, cap);
               && !c.failed && c.rest == RenderAll(left)
               && c.responses == Demux.RepliesOf(done) && c.events + c.pending == Demux.EventsOf(done)
  {
    hide Demux.RunOps, Demux.Legal, RenderAll, IsWellFormed, WithinCap, LegalLog, UnitsOf, QueueFits;
    hide Clients.ClientLine;
    var us, daemon := UnitsOf(conn.log), conn.registry.daemonId;
    forall n | n in NoticesIn(conn.log) ensures n.count < U64_LIMIT {
      NoticeIsBounded(conn.handle.State(), n);
    }
    forall u | u in us ensures IsWellFormed(u) {
      HistoryIsWellFormed(conn.log, daemon, conn.limits, u);
    }
    GreetingIsRead(daemon, RenderAll(us), cap);
    done, left := Demux.Demultiplexed(us, Demux.Session(RenderAll(us), [], [], [], false), ops, cap);
  }
}
