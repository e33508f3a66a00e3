/** From one client's lines to another's: what the modules mean together. */
module EndToEnd {
  import opened Text
  import opened Messages
  import opened Lines
  import opened Framing
  import opened Cluster
  import opened Registries
  import opened Replies
  import opened Intake
  import opened Exchanges
  import Clients
  import Commands
  import Convergence
  import Coverage
  import Deliveries = Delivery
  import Grammar
  import Invariants
  import Peering
  import Safety
  import Utf8

  // --- the client's command line is understood ------------------------------------------------------

  /** What the client sends for PUBLISH parses to that very command. */
  lemma PublishLineParses(t: string, key: string)
    requires Commands.IsValidType(t) && Commands.IsValidKey(key)
    ensures ParseLine(Clients.PublishLine(t, key)) == Commands.Ok(Commands.Publish(t, key))
  {
    hide Commands.Parse, Commands.Upper;
    var cmd, l := Commands.Publish(t, key), Grammar.Layout([], "PUBLISH", [], [], []);
    AlreadyUpper("PUBLISH");
    Grammar.SpelledParses(cmd, l);
    SpelledPlainly(t, key);
    PublishLineIsAscii(t, key);
    Utf8.AsciiIsText(Clients.PublishLine(t, key));
  }

  lemma PublishLineIsAscii(t: string, key: string)
    requires Commands.IsValidType(t) && Commands.IsValidKey(key)
    ensures Utf8.IsAscii(Clients.PublishLine(t, key))
  {
    assert forall i :: 0 <= i < |t| ==> t[i] in t && Commands.IsTchar(t[i]);
    assert forall i :: 0 <= i < |key| ==> key[i] in key;
    assert Utf8.IsAscii("PUBLISH");
  }

  /** A line in UTF-8 is understood as the text it encodes: as a command exactly when the text is a spelling
      of that command and the command is valid. */
  lemma EncodedLineParsesIff(text: string, cmd: Commands.Command)
    ensures ParseLine(Utf8.EncodeAll(text)) == Commands.Ok(cmd)
       <==> Commands.IsValidCommand(cmd) && exists l :: Grammar.IsLayout(cmd, l) && text == Grammar.Spell(cmd, l)
  {
    hide Commands.Parse, Grammar.IsLayout, Grammar.Spell, Commands.IsValidCommand;
    Utf8.TextRoundTrip(text);
    Grammar.ParseIff(text, cmd);
  }

  lemma {:induction false} AlreadyUpper(s: string)
    requires forall i :: 0 <= i < |s| ==> !('a' <= s[i] <= 'z')
    ensures Commands.Upper(s) == s
  {
    if s == [] {
    } else {
      AlreadyUpper(s[1..]);
      assert s == [s[0]] + s[1..];
    }
  }

  lemma SpelledPlainly(t: string, key: string)
    ensures Grammar.Spell(Commands.Publish(t, key), Grammar.Layout([], "PUBLISH", [], [], []))
         == Clients.PublishLine(t, key)
  {
    var args := [' '] + [] + t + [' '] + [] + key + [];
    assert args == [SP] + t + [SP] + key;
    assert "PUBLISH" + args == Clients.PublishLine(t, key);
    assert [] + ("PUBLISH" + args) == "PUBLISH" + args;
  }

  // --- a body on the client's socket -------------------------------------------------------------------

  /** Every line as it is sent, its CR included, is within the daemon's line limit. */
  ghost predicate LinesWithin(body: seq<string>, max: nat)
  {
    |TERMINATOR| < max && forall l :: l in body ==> |StuffLine(l)| < max
  }

  lemma FitsStep(line: string, rest: string, max: nat)
    requires LF !in line && |line| < max && (line == TERMINATOR || LinesFit(rest, max))
    ensures LinesFit(line + CRLF + rest, max)
  {
    LineRoundTrip(line, rest);
    LfAfterCr(line, rest);
  }

  lemma {:induction false} BlockFits(body: seq<string>, rest: string, max: nat)
    requires LfFree(body) && LinesWithin(body, max)
    ensures LinesFit(Block(body) + rest, max)
  {
    hide LinesFit;
    if body == [] {
      FitsStep(TERMINATOR, rest, max);
    } else {
      BlockFits(body[1..], rest, max);
      StuffRoundTrip(body[0]);
      FitsStep(StuffLine(body[0]), Block(body[1..]) + rest, max);
      assert Block(body) + rest == StuffLine(body[0]) + CRLF + (Block(body[1..]) + rest);
    }
  }

  /** However the client's block is cut into reads, the daemon gets the lines back if they fit, and in
      any case goes on reading right after the terminator. */
  lemma BodyArrives(body: seq<string>, rest: string, rbuf: string, chunks: seq<string>, lim: Limits)
    requires LfFree(body) && LinesWithin(body, lim.bodyLine) && Stream(rbuf, chunks) == Block(body) + rest
    ensures var got := PullBody(rbuf, chunks, lim.bodyLine);
            && got.Whole? && Stream(got.rbuf, got.chunks) == rest
            && Judged(got.raw, lim.message) == if BodySize(body) <= lim.message then Some(body) else None
  {
    hide PullBody, SplitBlock, LinesFit;
    BlockFits(body, rest, lim.bodyLine);
    BodyIsRead(rbuf, chunks, lim.bodyLine);
    BlockRoundTrip(body, rest);
  }

  // --- over the links ----------------------------------------------------------------------------------

  /** Daemon after daemon reads the frame from its predecessor and writes it to its successor; each
      has its own limit.  What the last one holds. */
  function Relayed(f: Frame, limits: seq<nat>): seq<Frame>
    decreases |limits|
  {
    if limits == [] then [f]
    else
      var got := Peering.FramesOf(Peering.Serialize(f), limits[0]);
      if |got| == 1 then Relayed(got[0], limits[1..]) else []
  }

  predicate FitsAll(m: Message, limits: seq<nat>)
  {
    limits == [] || (BodySize(m.body) <= limits[0] && FitsAll(m, limits[1..]))
  }

  lemma OneHop(f: Frame, max: nat)
    requires Peering.IsWellFormed(f)
    ensures Peering.FramesOf(Peering.Serialize(f), max) == Peering.IfFits(f, max)
  {
    hide Peering.Serialize, Peering.FramesOf, Peering.IsWellFormed;
    Peering.NoFrames(max);
    Peering.OneFrame(f, [], max);
    assert Peering.Serialize(f) + [] == Peering.Serialize(f);
  }

  /** Over any number of hops a message arrives unchanged exactly when it fits every limit. */
  lemma {:induction false} RelayedUnchanged(m: Message, limits: seq<nat>)
    requires Peering.IsWellFormed(Feed(m))
    ensures Relayed(Feed(m), limits) == if FitsAll(m, limits) then [Feed(m)] else []
  {
    hide Peering.Serialize, Peering.FramesOf, Peering.IsWellFormed;
    if limits == [] {
    } else {
      OneHop(Feed(m), limits[0]);
      RelayedUnchanged(m, limits[1..]);
    }
  }

  // --- the whole way ---------------------------------------------------------------------------------------

  /** What a subscriber reads of a body: taken off the publisher's connection, relayed frame by frame
      and pushed to the subscriber's connection, octets at every boundary. */
  function Journey(rbuf: string, chunks: seq<string>, t: string, id: string, origin: string,
                   lim: Limits, limits: seq<nat>, cap: nat): Option<Message>
  {
    var got := PullBody(rbuf, chunks, lim.bodyLine);
    var body := if got.Whole? then Judged(got.raw, lim.message) else None;
    match body
    case None => None
    case Some(lines) =>
      var arrived := Relayed(Feed(Message(t, id, origin, lines)), limits);
      if |arrived| != 1 || !arrived[0].Feed? then None
      else match Clients.TakeUnit(Delivery(arrived[0].msg), cap)
        case Failed(_) => None
        case Got(taken, _) => if taken.Pushed? && taken.event.Delivered? then Some(taken.event.msg) else None
  }

  lemma Pushed(m: Message, cap: nat)
    requires IsWellFormed(Unit.Push(Delivered(m))) && WithinCap(Unit.Push(Delivered(m)), cap)
    ensures Clients.TakeUnit(Delivery(m), cap) == Clients.Got(Clients.Pushed(Delivered(m)), [])
  {
    Clients.TakeDelivery(m, [], cap);
    assert Delivery(m) + [] == Delivery(m);
  }

  /** Lines without LF, whatever dots, CRs or status-like text they contain, reach the subscriber as
      they were sent exactly when the body fits the publisher's daemon and every daemon on the way. */
  lemma BodyIdentity(body: seq<string>, rest: string, rbuf: string, chunks: seq<string>,
                     t: string, id: string, origin: string, lim: Limits, limits: seq<nat>, cap: nat)
    requires LfFree(body) && LinesWithin(body, lim.bodyLine) && Stream(rbuf, chunks) == Block(body) + rest
    requires IsField(t) && IsField(id) && IsField(origin)
    requires WithinCap(Unit.Push(Delivered(Message(t, id, origin, body))), cap)
    ensures var m := Message(t, id, origin, body);
            var fits := BodySize(body) <= lim.message && FitsAll(m, limits);
            Journey(rbuf, chunks, t, id, origin, lim, limits, cap) == if fits then Some(m) else None
  {
    hide PullBody, Clients.TakeUnit, WithinCap, Relayed, FitsAll;
    var m := Message(t, id, origin, body);
    BodyArrives(body, rest, rbuf, chunks, lim);
    RelayedUnchanged(m, limits);
    Pushed(m, cap);
  }

  // --- from the cluster to a connection ---------------------------------------------------------------------

  /** In every reachable state every message offered to a connection can be pushed and read back. */
  lemma OfferedAreWellFormed(run: seq<State>, steps: seq<Step>, i: nat, d: string, c: nat, m: Message)
    requires IsRun(run, steps) && Convergence.ProperStart(run[0]) && Safety.NamesFit(run[0])
    requires (forall step :: step in steps ==> Safety.IsProper(step)) && i < |run|
    requires d in run[i].nodes && c in run[i].nodes[d].reg.conns && m in run[i].nodes[d].reg.conns[c].offered
    ensures IsWellFormed(Unit.Push(Delivered(m)))
  {
    hide IsRun, Convergence.ProperStart, Invariants.InFlightOk, Coverage.Covered, Invariants.ClaimsOk, Safety.IsProper;
    var s, r := run[i], run[i].nodes[d].reg;
    Convergence.Always(run, steps, i);
    Deliveries.ClientsAlways(run, steps, i);
    Safety.FannedAlways(run, steps, i);
    Safety.FitAlways(run, steps, i);
    assert Deliveries.QueueOk(r, c);
    HeardIsFanned(r.fanned, c, m);
    assert Invariants.Numbered(s, m);
  }

  lemma {:induction false} HeardIsFanned(events: seq<FanEvent>, c: nat, m: Message)
    requires m in Deliveries.Heard(events, c)
    ensures exists e :: e in events && e.msg == m
  {
    var init, last := events[..|events| - 1], events[|events| - 1];
    if m in Deliveries.Heard(init, c) {
      HeardIsFanned(init, c, m);
      var e :| e in init && e.msg == m;
      assert e in events;
    } else {
      assert last in events;
    }
  }
}
