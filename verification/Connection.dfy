/** One client connection: buffered input, exchanges run to completion, pushes only in between,
    while the daemon's other tasks keep using the registry at every await. */
module Connections {
  import opened Text
  import opened Messages
  import opened Lines
  import opened Framing
  import opened Ownership
  import opened Outbound
  import opened Registries
  import opened Cluster
  import opened Replies
  import opened Intake
  import opened Exchanges
  import Commands
  import Utf8

  // --- the other tasks of the daemon -----------------------------------------------------------------

  /** A registry call made by another connection or by the federation engine. */
  datatype OtherCall =
    | Registers(t: string, key: string, now: nat)
    | Learns(t: string, reg: TypeReg)
    | Publishes(t: string, key: string, body: seq<string>)
    | Receives(m: Message)
    | Joins(t: string, h: ConnHandle)
    | Parts(t: string, c: nat)
    | Ends(c: nat, mine: set<string>)

  /** Which branch of the select fires if it can. */
  datatype Wake = Input | Queued | DropsNoted

  /** What happens while the connection waits once: calls of other tasks, then its own waking. */
  datatype Turn = Turn(wake: Wake, now: nat, others: seq<OtherCall>)

  /** Another task acts for other connections only, through their own handles, and with what the command
      parser, the body reader and the peer reader let through. */
  ghost predicate IsForeign(call: OtherCall, id: nat, handles: map<nat, ConnHandle>)
  {
    match call
    case Joins(_, h) => h.id != id && h.id in handles && handles[h.id] == h
    case Parts(_, c) => c != id
    case Ends(c, _) => c != id
    case Registers(t, _, _) => IsField(t)
    case Learns(t, _) => IsField(t)
    case Publishes(_, _, body) => LfFree(body)
    case Receives(m) => IsField(m.typeName) && IsField(m.msgId) && IsField(m.origin) && LfFree(m.body)
  }

  ghost predicate AllForeign(calls: seq<OtherCall>, id: nat, handles: map<nat, ConnHandle>)
  {
    forall i :: 0 <= i < |calls| ==> IsForeign(calls[i], id, handles)
  }

  ghost predicate IsScript(turns: seq<Turn>, id: nat, handles: map<nat, ConnHandle>)
  {
    forall i :: 0 <= i < |turns| ==> AllForeign(turns[i].others, id, handles)
  }

  lemma ScriptGrows(turns: seq<Turn>, id: nat, handles: map<nat, ConnHandle>, h: ConnHandle)
    requires IsScript(turns, id, handles)
    ensures IsScript(turns, id, handles[id := h])
  {
    forall i | 0 <= i < |turns| ensures AllForeign(turns[i].others, id, handles[id := h]) {
      assert AllForeign(turns[i].others, id, handles);
    }
  }

  predicate WasFanned(fanned: seq<FanEvent>, m: Message)
  {
    exists i :: 0 <= i < |fanned| && fanned[i].msg == m
  }

  /** Every message handed to the cluster was fanned out here first. */
  ghost predicate FannedFirst(sent: seq<Frame>, fanned: seq<FanEvent>)
  {
    forall i :: 0 <= i < |sent| ==> sent[i].Feed? ==> WasFanned(fanned, sent[i].msg)
  }

  lemma FannedGrows(sent: seq<Frame>, fanned: seq<FanEvent>, more: seq<FanEvent>)
    requires FannedFirst(sent, fanned) && fanned <= more
    ensures FannedFirst(sent, more)
  {
    forall i | 0 <= i < |sent| && sent[i].Feed? ensures WasFanned(more, sent[i].msg) {
      var k :| 0 <= k < |fanned| && fanned[k].msg == sent[i].msg;
      assert more[k] == fanned[k];
    }
  }

  /** A queue that conserves its messages and holds only what can be put on a line. */
  ghost predicate Sound(q: Queue, daemon: string)
  {
    Conserved(q) && QueueFits(q, daemon)
  }

  lemma OfferSound(q: Queue, m: Message, daemon: string)
    requires Sound(q, daemon) && MessageFits(m, daemon)
    ensures Sound(Offer(q, m), daemon)
  {
    hide Conserved, QueueFits;
    OfferConserves(q, m);
    OfferFits(q, m, daemon);
  }

  lemma TakeSound(q: Queue, daemon: string)
    requires Sound(q, daemon) && q.items != []
    ensures Sound(Take(q), daemon) && MessageFits(q.items[0], daemon)
  {
    hide Conserved, QueueFits;
    TakeConserves(q);
    TakeFits(q, daemon);
  }

  lemma FlushSound(q: Queue, notices: seq<Notice>, daemon: string)
    requires Sound(q, daemon) && Drains(notices, q.drops)
    ensures Sound(Flush(q, notices), daemon)
  {
    hide Conserved, QueueFits, Drains;
    FlushConserves(q, notices);
    FlushFits(q, notices, daemon);
  }

  lemma ParsedTypeIsField(line: string, t: string, key: string)
    requires ParseLine(line) == Commands.Ok(Commands.Register(t, key))
    ensures IsField(t)
  {
    hide Commands.Parse;
    Commands.ParsedIsValid(Utf8.Decode(line));
    ValidIsField(t);
  }

  lemma CloseSound(q: Queue, daemon: string)
    requires Sound(q, daemon)
    ensures Sound(Close(q), daemon)
  {
  }

  lemma NewSound(depth: nat, daemon: string)
    ensures Sound(NewQueue(depth), daemon)
  {
    NewQueueConserved(depth);
  }

  lemma JudgedLines(rbuf: string, chunks: seq<string>, max: nat, size: nat)
    ensures var got := PullBody(rbuf, chunks, max);
            got.Whole? && Judged(got.raw, size).Some? ==> LfFree(Judged(got.raw, size).value)
  {
    if PullBody(rbuf, chunks, max).Whole? {
      BodyLinesAreLines(rbuf, chunks, max);
    }
  }

  /** A fan-out offers a connection at most one message and conserves its queue. */
  lemma FanKeeps(r: RegState, m: Message, c: nat)
    requires c in r.conns && Sound(r.conns[c], r.id) && MessageFits(m, r.id)
    ensures var q := FanOut(r, m).conns[c];
            Sound(q, r.id) && q.written == r.conns[c].written && q.noticed == r.conns[c].noticed
            && r.conns[c].items <= q.items
    ensures r.fanned <= FanOut(r, m).fanned
  {
    hide Sound;
    OfferSound(r.conns[c], m, r.id);
  }

  lemma AcceptKeeps(r: RegState, m: Message, c: nat)
    requires c in r.conns && Sound(r.conns[c], r.id) && MessageFits(m, r.id)
    ensures var s := Accept(r, m).1; s.conns == r.conns && s.fanned == r.fanned && s.subs == r.subs
    ensures var q := FanOut(Accept(r, m).1, m).conns[c];
            Sound(q, r.id) && q.written == r.conns[c].written && q.noticed == r.conns[c].noticed
            && r.conns[c].items <= q.items
    ensures r.fanned <= FanOut(Accept(r, m).1, m).fanned && FanOut(Accept(r, m).1, m).subs == r.subs
    ensures FanOut(Accept(r, m).1, m).conns.Keys == r.conns.Keys
  {
    hide Sound, MessageFits;
    FanKeeps(Accept(r, m).1, m, c);
  }

  lemma PublishKeeps(r: RegState, t: string, key: string, body: seq<string>, c: nat)
    requires c in r.conns && Sound(r.conns[c], r.id) && TypesFit(r.types) && LfFree(body)
    ensures var s := PublishStep(r, t, key, body);
            && s.conns.Keys == r.conns.Keys && s.subs == r.subs && r.fanned <= s.fanned
            && Sound(s.conns[c], r.id) && s.conns[c].written == r.conns[c].written
            && s.conns[c].noticed == r.conns[c].noticed && r.conns[c].items <= s.conns[c].items
            && (Authorize(r.types, t, key) == Authorized ==> WasFanned(s.fanned, NextMessage(r, t, body)))
  {
    hide Sound;
    if Authorize(r.types, t, key) == Authorized {
      var m := NextMessage(r, t, body);
      assert m.msgId == MsgId(r.id, r.nextSeq);
      AcceptKeeps(r.(nextSeq := r.nextSeq + 1), m, c);
      var s := PublishStep(r, t, key, body);
      assert s.fanned[|s.fanned| - 1].msg == m;
    }
  }

  class Conn {
    const id: nat
    const registry: Registry
    const handle: ConnHandle
    const limits: Limits
    const capabilities: seq<string>
    const help: seq<string>
    /** Octets received but not consumed, and the reads still to come; after them the stream ends. */
    var rbuf: string
    var chunks: seq<string>
    var out: string
    var mySubs: set<string>
    /** Frames given to the forwarder. */
    var forwarded: seq<Frame>
    var turns: seq<Turn>
    var now: nat
    ghost const input: string
    ghost var log: seq<Item>

    /** Heap side: the registry knows this connection, its queue conserves every offer and holds nothing
        that could not be put on a line, the index lists it under exactly its own subscriptions, and the script
        is the others' business. */
    ghost predicate Linked()
      reads `mySubs, `turns, `forwarded, registry, registry.seen, registry.handles.Values
    {
      && registry.Valid() && id in registry.handles && registry.handles[id] == handle
      && Sound(handle.State(), registry.daemonId) && TypesFit(registry.types)
      && LfFree(capabilities) && LfFree(help)
      && (forall t :: t in mySubs <==> id in Listeners(Ids(registry.subs), t))
      && IsScript(turns, id, registry.handles)
      && FannedFirst(forwarded, registry.fanned)
    }

    /** Meanwhile other tasks only appended to the queue, added drops and added or lowered types. */
    twostate predicate Undisturbed()
      reads handle, registry
    {
      && handle.written == old(handle.written) && handle.noticed == old(handle.noticed)
      && old(handle.items) <= handle.items
      && old(registry.types).Keys <= registry.types.Keys
    }

    /** What was consumed and written is the history so far, then `taken` and `units`. */
    ghost predicate Wrote(taken: string, units: seq<Unit>, sent: seq<Frame>)
      reads `out, `log, `rbuf, `chunks, `forwarded, handle`written, handle`noticed
    {
      && out == Greeting(registry.daemonId) + RenderAll(UnitsOf(log) + units)
      && input == TakenIn(log) + taken + Stream(rbuf, chunks)
      && forwarded == SentIn(log) + sent
      && MessagesIn(log) == handle.written && NoticesIn(log) == handle.noticed
      && LegalLog(log, registry.daemonId, limits) && Unbroken(log)
    }

    /** A connection just accepted: nothing read, nothing written, subscribed to nothing. */
    constructor (registry: Registry, id: nat, depth: nat, limits: Limits, capabilities: seq<string>, help: seq<string>,
                 chunks: seq<string>, turns: seq<Turn>)
      requires registry.Valid() && id !in registry.handles
      requires forall t :: id !in Listeners(Ids(registry.subs), t)
      requires IsScript(turns, id, registry.handles) && TypesFit(registry.types)
      requires LfFree(capabilities) && LfFree(help)
      modifies registry`handles
      ensures Linked() && fresh(handle) && registry.handles == old(registry.handles)[id := handle]
      ensures this.registry == registry && this.id == id && this.limits == limits
      ensures out == [] && log == [] && rbuf == [] && this.chunks == chunks && input == Flat(chunks)
      ensures mySubs == {} && forwarded == [] && handle.written == [] && handle.noticed == []
    {
      this.registry, this.id, this.limits := registry, id, limits;
      this.capabilities, this.help, this.chunks, this.turns := capabilities, help, chunks, turns;
      rbuf, out, mySubs, forwarded, now := [], [], {}, [], 0;
      handle := new ConnHandle(id, depth);
      input, log := Flat(chunks), [];
      new;
      NewSound(depth, registry.daemonId);
      assert id !in registry.handles;
      ghost var others := registry.handles;
      registry.handles := registry.handles[id := handle];
      assert IsScript(turns, id, registry.handles) by { ScriptGrows(turns, id, others, handle); }
    }

    /** All other tasks' calls in one wait, one after the other. */
    method Others()
      requires Linked()
      modifies `turns, `now, registry`nextSeq, registry`types, registry`subs, registry`accepted,
               registry`fanned, registry.seen, registry.handles.Values
      ensures Linked() && |turns| <= |old(turns)|
      ensures old(turns) != [] ==> |turns| < |old(turns)|
      ensures Undisturbed()
    {
      if turns == [] {
        return;
      }
      var turn := turns[0];
      turns, now := turns[1..], turn.now;
      assert AllForeign(turn.others, id, registry.handles);
      for i := 0 to |turn.others|
        invariant Linked() && turns == old(turns)[1..]
        invariant Undisturbed()
      {
        Other(turn.others[i]);
      }
    }

    method Other(call: OtherCall)
      requires Linked() && IsForeign(call, id, registry.handles)
      modifies registry`nextSeq, registry`types, registry`subs, registry`accepted, registry`fanned,
               registry.seen, registry.handles.Values
      ensures Linked()
      ensures Undisturbed()
    {
      hide Linked;
      if call.Publishes? {
        OtherPublishes(call.t, call.key, call.body);
      } else if call.Receives? {
        OtherReceives(call.m);
      } else if call.Registers? || call.Learns? {
        OtherNames(call);
      } else {
        OtherListens(call);
      }
    }

    method OtherNames(call: OtherCall)
      requires Linked() && IsForeign(call, id, registry.handles) && (call.Registers? || call.Learns?)
      modifies registry`types
      ensures Linked()
      ensures Undisturbed()
    {
      hide Sound, FannedFirst, Queues, IsScript;
      if call.Registers? {
        var _ := registry.RegisterLocal(call.t, call.key, call.now);
      } else {
        var _ := registry.ApplyRemoteRegistration(call.t, call.reg);
      }
    }

    method OtherListens(call: OtherCall)
      requires Linked() && IsForeign(call, id, registry.handles) && (call.Joins? || call.Parts? || call.Ends?)
      modifies registry`subs
      ensures Linked()
      ensures Undisturbed()
    {
      hide Sound, FannedFirst, Queues, TypesFit, IsScript;
      match call
      case Joins(t, h) => registry.SubscribeConn(t, h);
      case Parts(t, c) => registry.UnsubscribeConn(t, c);
      case Ends(c, mine) => registry.Remove(c, mine);
    }

    method OtherPublishes(t: string, key: string, body: seq<string>)
      requires Linked() && LfFree(body)
      modifies registry`nextSeq, registry`accepted, registry`fanned, registry.seen, registry.handles.Values
      ensures Linked()
      ensures Undisturbed()
    {
      var _, _ := Publish(t, key, body);
    }

    /** `publish_local`, with what it means for this connection. */
    method Publish(t: string, key: string, body: seq<string>) returns (a: Authorization, m: Message)
      requires Linked() && LfFree(body)
      modifies registry`nextSeq, registry`accepted, registry`fanned, registry.seen, registry.handles.Values
      ensures Linked()
      ensures Undisturbed()
      ensures a == Authorize(registry.types, t, key)
      ensures a == Authorized ==> m == NextMessage(old(registry.State()), t, body) && WasFanned(registry.fanned, m)
    {
      hide Sound, FannedFirst, FanOut, TypesFit, MessageFits;
      ghost var r := registry.State();
      PublishKeeps(r, t, key, body, id);
      a, m := registry.PublishLocal(t, key, body);
      FannedGrows(forwarded, r.fanned, registry.fanned);
    }

    method OtherReceives(m: Message)
      requires Linked() && MessageFits(m, registry.daemonId)
      modifies registry`accepted, registry`fanned, registry.seen, registry.handles.Values
      ensures Linked()
      ensures Undisturbed()
    {
      hide Sound, FannedFirst, FanOut, TypesFit, MessageFits;
      ghost var r := registry.State();
      AcceptKeeps(r, m, id);
      var isNew := registry.IngestRemote(m);
      FannedGrows(forwarded, r.fanned, registry.fanned);
    }

    // --- writers: an await after every write lets the other tasks run ------------------------------

    method WriteRaw(s: string)
      requires Linked()
      modifies `out, `turns, `now, registry`nextSeq, registry`types, registry`subs, registry`accepted,
               registry`fanned, registry.seen, registry.handles.Values
      ensures Linked() && |turns| <= |old(turns)| && out == old(out) + s
      ensures Undisturbed()
    {
      out := out + s;
      Others();
    }

    method WriteLine(code: nat, text: string)
      requires Linked()
      modifies `out, `turns, `now, registry`nextSeq, registry`types, registry`subs, registry`accepted,
               registry`fanned, registry.seen, registry.handles.Values
      ensures Linked() && |turns| <= |old(turns)| && out == old(out) + (StatusLine(code, text) + CRLF)
      ensures Undisturbed()
    {
      WriteRaw(Print(code, 10) + [SP] + text + CRLF);
    }

    method WriteStatus(code: nat, text: string, ghost taken: string, ghost units: seq<Unit>, ghost sent: seq<Frame>)
      requires Linked() && Wrote(taken, units, sent)
      modifies `out, `turns, `now, registry`nextSeq, registry`types, registry`subs, registry`accepted,
               registry`fanned, registry.seen, registry.handles.Values
      ensures Linked() && |turns| <= |old(turns)| && Wrote(taken, units + [Status(code, text)], sent)
    {
      hide Linked, StatusLine, LegalLog, RenderAll, UnitsOf;
      OneMore(UnitsOf(log), units, Status(code, text));
      WriteLine(code, text);
      assert Render(Status(code, text)) == StatusLine(code, text) + CRLF;
    }

    /** A status line, the list as it is after that, and the terminator. */
    method WriteListing(code: nat, text: string, lines: seq<string>, ghost taken: string)
      requires Linked() && ListingBegun(code, text, taken)
      modifies `out, `turns, `now, registry`nextSeq, registry`types, registry`subs, registry`accepted,
               registry`fanned, registry.seen, registry.handles.Values
      ensures Linked() && Undisturbed() && |turns| <= |old(turns)| && Wrote(taken, [Listing(code, text, lines)], [])
    {
      hide Linked, StatusLine, LegalLog, Block, RenderAll, UnitsOf;
      OneMore(UnitsOf(log), [], Listing(code, text, lines));
      ghost var start := Greeting(registry.daemonId) + RenderAll(UnitsOf(log) + []);
      var block := EncodeBody(lines);
      WriteRaw(block);
      assert start + (StatusLine(code, text) + CRLF) + block == start + (StatusLine(code, text) + CRLF + block);
      assert Render(Listing(code, text, lines)) == StatusLine(code, text) + CRLF + block;
      assert [] + [Listing(code, text, lines)] == [Listing(code, text, lines)];
    }

    /** The status line of a listing is written, its list is not. */
    ghost predicate ListingBegun(code: nat, text: string, taken: string)
      reads `out, `log, `rbuf, `chunks, `forwarded, handle`written, handle`noticed
    {
      && out == Greeting(registry.daemonId) + RenderAll(UnitsOf(log) + []) + (StatusLine(code, text) + CRLF)
      && input == TakenIn(log) + taken + Stream(rbuf, chunks)
      && forwarded == SentIn(log) + []
      && MessagesIn(log) == handle.written && NoticesIn(log) == handle.noticed
      && LegalLog(log, registry.daemonId, limits) && Unbroken(log)
    }

    method BeginListing(code: nat, text: string, ghost taken: string)
      requires Linked() && Wrote(taken, [], [])
      modifies `out, `turns, `now, registry`nextSeq, registry`types, registry`subs, registry`accepted,
               registry`fanned, registry.seen, registry.handles.Values
      ensures Linked() && Undisturbed() && |turns| <= |old(turns)| && ListingBegun(code, text, taken)
    {
      hide Linked, StatusLine, LegalLog, RenderAll, UnitsOf;
      WriteLine(code, text);
    }

    method WriteDenial(a: Authorization, t: string, ghost taken: string, ghost units: seq<Unit>)
      requires Linked() && Wrote(taken, units, []) && a != Authorized
      modifies `out, `turns, `now, registry`nextSeq, registry`types, registry`subs, registry`accepted,
               registry`fanned, registry.seen, registry.handles.Values
      ensures Linked() && |turns| <= |old(turns)| && Wrote(taken, units + [Denial(a, t)], [])
    {
      hide Linked, Wrote;
      if a == UnknownType {
        WriteStatus(UNKNOWN_TYPE, t + " not registered", taken, units, []);
      } else {
        WriteStatus(KEY_MISMATCH, "authorization key mismatch", taken, units, []);
      }
    }

    /** As `Wrote([], [], [])`, but the last exchange may have ended the connection. */
    ghost predicate Kept()
      reads `out, `log, `rbuf, `chunks, `forwarded, handle`written, handle`noticed
    {
      && out == Greeting(registry.daemonId) + RenderAll(UnitsOf(log))
      && input == TakenIn(log) + Stream(rbuf, chunks)
      && forwarded == SentIn(log)
      && MessagesIn(log) == handle.written && NoticesIn(log) == handle.noticed
      && LegalLog(log, registry.daemonId, limits)
    }

    /** The exchange ended the connection. */
    ghost method Break(x: Item)
      requires x.Broken? && Wrote(x.taken, x.units, []) && LegalItem(x, registry.daemonId, limits)
      modifies `log
      ensures log == old(log) + [x] && Kept()
    {
      hide LegalItem, LegalLog, RenderAll;
      LogSnoc(log, x);
      LegalSnoc(log, x, registry.daemonId, limits);
      log := log + [x];
    }

    /** The exchange is over: it enters the history. */
    ghost method Conclude(x: Item, sent: seq<Frame>)
      requires Wrote(if x.Told? then [] else x.taken, ItemUnits(x), sent) && !x.Broken? && !x.Told?
      requires sent == x.sent && LegalItem(x, registry.daemonId, limits)
      modifies `log
      ensures log == old(log) + [x] && Wrote([], [], [])
    {
      hide LegalItem, LegalLog, RenderAll;
      LogSnoc(log, x);
      LegalSnoc(log, x, registry.daemonId, limits);
      assert UnitsOf(log + [x]) + [] == UnitsOf(log) + ItemUnits(x);
      log := log + [x];
    }

    // --- readers ---------------------------------------------------------------------------------------

    /** Extract a complete line from the read buffer, if one is present. */
    method TakeBuffered(max: nat) returns (r: LineTake)
      modifies `rbuf
      ensures (r, rbuf) == TakeLine(old(rbuf), max)
      ensures r.Line? ==> |rbuf| < |old(rbuf)|
      ensures |rbuf| <= |old(rbuf)|
    {
      match FirstLf(rbuf) {
        case Some(p) =>
          var line := rbuf[..p];
          rbuf := rbuf[p + 1..];
          if line != [] && line[|line| - 1] == CR {
            line := line[..|line| - 1];
          }
          if |line| > max {
            return TooLong;
          }
          return Line(line);
        case None =>
          return if |rbuf| > max then TooLong else Need;
      }
    }

    /** Wait for a line without looking at the outbound queue. */
    method ReadLineBlocking(max: nat) returns (r: Pulled)
      requires Linked()
      modifies `rbuf, `chunks, `turns, `now, registry`nextSeq, registry`types, registry`subs, registry`accepted,
               registry`fanned, registry.seen, registry.handles.Values
      ensures Linked() && |turns| <= |old(turns)|
      ensures Undisturbed()
      ensures r == PullLine(old(rbuf), old(chunks), max)
      ensures rbuf == r.rbuf && chunks == r.chunks
      ensures |chunks| <= |old(chunks)| && (|chunks| == |old(chunks)| ==> |rbuf| <= |old(rbuf)|)
    {
      hide Linked, PullLine, TakeLine, Flat;
      while true
        invariant Linked() && |turns| <= |old(turns)|
        invariant Undisturbed()
        invariant PullLine(rbuf, chunks, max) == PullLine(old(rbuf), old(chunks), max)
        invariant |chunks| <= |old(chunks)| && (|chunks| == |old(chunks)| ==> rbuf == old(rbuf))
        decreases |chunks|
      {
        PullStep(rbuf, chunks, max);
        var take := TakeBuffered(max);
        if take.Line? {
          return Complete(take.line, rbuf, chunks);
        }
        if take.TooLong? {
          return Over(rbuf, chunks);
        }
        Others();
        if chunks == [] {
          return Ended(rbuf, chunks);
        }
        rbuf, chunks := rbuf + chunks[0], chunks[1..];
      }
    }

    /** A DATA body: its unstuffed lines if they fit, None if it is too large or a line is over-long. */
    method ReadBody() returns (eof: bool, body: Option<seq<string>>)
      requires Linked()
      modifies `rbuf, `chunks, `turns, `now, registry`nextSeq, registry`types, registry`subs, registry`accepted,
               registry`fanned, registry.seen, registry.handles.Values
      ensures Linked() && |turns| <= |old(turns)|
      ensures Undisturbed()
      ensures |chunks| <= |old(chunks)| && (|chunks| == |old(chunks)| ==> |rbuf| <= |old(rbuf)|)
      ensures var got := PullBody(old(rbuf), old(chunks), limits.bodyLine);
              && rbuf == got.rbuf && chunks == got.chunks && eof == got.Eof?
              && body == if got.Whole? then Judged(got.raw, limits.message) else None
    {
      var lines: seq<string> := [];
      var total := 0;
      var tooLarge := false;
      eof, body := false, None;
      ghost var raw: seq<string> := [];
      NothingBefore(PullBody(rbuf, chunks, limits.bodyLine));
      while true
        invariant Linked() && |turns| <= |old(turns)|
        invariant Undisturbed()
        invariant |chunks| <= |old(chunks)| && (|chunks| == |old(chunks)| ==> |rbuf| <= |old(rbuf)|)
        invariant PullBody(old(rbuf), old(chunks), limits.bodyLine)
               == Before(raw, PullBody(rbuf, chunks, limits.bodyLine))
        invariant total == BodySize(UnstuffAll(raw)) && (tooLarge <==> total > limits.message)
        invariant !tooLarge ==> lines == UnstuffAll(raw)
        decreases |Stream(rbuf, chunks)|
      {
        hide Linked, PullLine, Stream;
        BodyStep(raw, rbuf, chunks, limits.bodyLine);
        PullLineShrinks(rbuf, chunks, limits.bodyLine);
        var next := ReadLineBlocking(limits.bodyLine);
        if next.Ended? {
          return true, None;
        }
        if next.Over? {
          return false, None;
        }
        if next.line == TERMINATOR {
          break;
        }
        var unstuffed := UnstuffLine(next.line);
        total := total + |unstuffed| + 1;
        if total > limits.message {
          tooLarge := true;
        }
        if !tooLarge {
          lines := lines + [unstuffed];
        }
        AppendRaw(raw, next.line, None);
        raw := raw + [next.line];
      }
      return false, if tooLarge then None else Some(lines);
    }

    // --- exchanges ---------------------------------------------------------------------------------------

    /** Read the body and account for the octets it took. */
    method TakeBody(ghost taken: string)
      returns (eof: bool, body: Option<seq<string>>, ghost block: string, ghost got: BodyPull)
      requires Linked() && Wrote(taken, [INVITE], [])
      modifies `rbuf, `chunks, `turns, `now, registry`nextSeq, registry`types, registry`subs, registry`accepted,
               registry`fanned, registry.seen, registry.handles.Values
      ensures Linked() && |turns| <= |old(turns)| && Wrote(taken + block, [INVITE], [])
      ensures |chunks| <= |old(chunks)| && (|chunks| == |old(chunks)| ==> |rbuf| <= |old(rbuf)|)
      ensures eof == got.Eof? && body == if got.Whole? then Judged(got.raw, limits.message) else None
      ensures body.Some? ==> LfFree(body.value)
      ensures IsTakenBlock(block, got, limits.bodyLine)
    {
      hide Linked, PullBody, Flat, RenderAll, LegalLog, SplitBlock, Judged;
      block := BodyTaken(rbuf, chunks, limits.bodyLine);
      got := PullBody(rbuf, chunks, limits.bodyLine);
      JudgedLines(rbuf, chunks, limits.bodyLine, limits.message);
      eof, body := ReadBody();
      assert TakenIn(log) + taken + (block + Stream(rbuf, chunks))
          == TakenIn(log) + (taken + block) + Stream(rbuf, chunks);
    }

    /** The verdict on a body that was read or given up, by the record held at this moment. */
    method Judge(t: string, key: string, body: Option<seq<string>>, ghost taken: string, ghost line: string,
                 ghost block: string, ghost got: BodyPull, ghost held: Option<TypeReg>)
      requires Linked() && Wrote(taken + block, [INVITE], []) && IsCommand(taken, line, limits)
      requires ParseLine(line) == Commands.Ok(Commands.Publish(t, key)) && Permits(held, key)
      requires !got.Eof? && IsTakenBlock(block, got, limits.bodyLine)
      requires body == if got.Whole? then Judged(got.raw, limits.message) else None
      requires body.Some? ==> LfFree(body.value)
      modifies `out, `turns, `now, `forwarded, `log, registry`nextSeq, registry`types, registry`subs,
               registry`accepted, registry`fanned, registry.seen, registry.handles.Values
      ensures Linked() && |turns| <= |old(turns)| && Wrote([], [], [])
      ensures var later := Held(old(registry.types), t);
              log == old(log) + [
                if body.None? then Exchange(taken + block, [INVITE, REFUSED_SIZE], [], [held])
                else if Permits(later, key) then
                  Exchange(taken + block, [INVITE, MESSAGE_ACCEPTED],
                           [Feed(NextMessage(old(registry.State()), t, body.value))], [held, later])
                else Exchange(taken + block, [INVITE, Refusal(later, t)], [], [held, later])]
    {
      hide Linked, Wrote, ParseLine, RenderAll, LegalItem, IsCommand, Denial, Refusal, Judged, Permits, Authorize;
      if body == None {
        WriteStatus(TOO_LARGE, REFUSED_SIZE.text, taken + block, [INVITE], []);
        assert [INVITE] + [REFUSED_SIZE] == [INVITE, REFUSED_SIZE];
        RefusedIsLegal(t, key, taken, line, block, got, held, registry.daemonId, limits);
        Conclude(Exchange(taken + block, [INVITE, REFUSED_SIZE], [], [held]), []);
        return;
      }
      ghost var later := Held(registry.types, t);
      DenialIsRefusal(registry.types, t, key);
      var a, m := PublishAndForward(t, key, body.value, taken + block);
      if a == Authorized {
        WriteStatus(ACCEPTED, MESSAGE_ACCEPTED.text, taken + block, [INVITE], [Feed(m)]);
        assert [INVITE] + [MESSAGE_ACCEPTED] == [INVITE, MESSAGE_ACCEPTED];
        AcceptedIsLegal(t, key, taken, line, block, got, m, held, later, registry.daemonId, limits);
        Conclude(Exchange(taken + block, [INVITE, MESSAGE_ACCEPTED], [Feed(m)], [held, later]), [Feed(m)]);
      } else {
        WriteDenial(a, t, taken + block, [INVITE]);
        assert [INVITE] + [Denial(a, t)] == [INVITE, Denial(a, t)];
        LateDenialIsLegal(t, key, taken, line, block, got, held, later, registry.daemonId, limits);
        Conclude(Exchange(taken + block, [INVITE, Denial(a, t)], [], [held, later]), []);
      }
    }

    /** Publish under the key held now, and hand an accepted message to the cluster. */
    method PublishAndForward(t: string, key: string, lines: seq<string>, ghost taken: string)
      returns (a: Authorization, m: Message)
      requires Linked() && Wrote(taken, [INVITE], []) && LfFree(lines)
      modifies `forwarded, registry`nextSeq, registry`accepted, registry`fanned, registry.seen,
               registry.handles.Values
      ensures Linked() && (a == Authorized <==> Permits(Held(registry.types, t), key))
      ensures a == Authorize(registry.types, t, key)
      ensures a == Authorized ==> m == NextMessage(old(registry.State()), t, lines)
      ensures Wrote(taken, [INVITE], if a == Authorized then [Feed(m)] else [])
    {
      hide RenderAll, LegalLog, Stream, Authorize, Sound, Permits, Held;
      DenialIsRefusal(registry.types, t, key);
      a, m := Publish(t, key, lines);
      if a == Authorized {
        forwarded := forwarded + [Feed(m)];
      }
    }

    /** PUBLISH: a denial, or an invitation, the body and one verdict, with no push in between. */
    method HandlePublish(t: string, key: string, ghost taken: string, ghost line: string) returns (eof: bool)
      requires Linked() && Wrote(taken, [], []) && IsCommand(taken, line, limits)
      requires ParseLine(line) == Commands.Ok(Commands.Publish(t, key))
      modifies `rbuf, `chunks, `out, `turns, `now, `forwarded, `log, registry`nextSeq, registry`types,
               registry`subs, registry`accepted, registry`fanned, registry.seen, registry.handles.Values
      ensures Linked() && |turns| <= |old(turns)|
      ensures |chunks| <= |old(chunks)| && (|chunks| == |old(chunks)| ==> |rbuf| <= |old(rbuf)|)
      ensures old(log) <= log && |log| == |old(log)| + 1
      ensures (eof <==> log[|log| - 1].Broken?) && if eof then Kept() else Wrote([], [], [])
      ensures var held, x := Held(old(registry.types), t), log[|log| - 1];
              match held
              case None => x == Exchange(taken, [Status(UNKNOWN_TYPE, t + " not registered")], [], [held])
              case Some(reg) =>
                if reg.key != key then
                  x == Exchange(taken, [Status(KEY_MISMATCH, "authorization key mismatch")], [], [held])
                else if x.Broken? then x.units == [INVITE]
                else x.Exchange? && [INVITE] <= x.units && [held] <= x.held
    {
      hide Linked, Wrote, Kept, ParseLine, LegalItem, IsCommand, IsTakenBlock, Judged, Denial, Authorize;
      ghost var held := Held(registry.types, t);
      DenialIsRefusal(registry.types, t, key);
      var before := registry.PublishPrecheck(t, key);
      if before != Authorized {
        WriteDenial(before, t, taken, []);
        assert [] + [Denial(before, t)] == [Denial(before, t)];
        DeniedIsLegal(t, key, taken, line, held, registry.daemonId, limits);
        Conclude(Exchange(taken, [Denial(before, t)], [], [held]), []);
        return false;
      }
      WriteStatus(START_BODY, INVITE.text, taken, [], []);
      assert [] + [INVITE] == [INVITE];
      ghost var block, got;
      var body;
      eof, body, block, got := TakeBody(taken);
      if eof {
        BrokenIsLegal(taken, line, block, got, registry.daemonId, limits);
        Break(Broken(taken + block, [INVITE]));
        return;
      }
      Judge(t, key, body, taken, line, block, got, held);
    }

    /** REGISTER: a free type is claimed for this daemon and handed to the cluster; the same key is confirmed
        and another one refused, and neither goes further. */
    method HandleRegister(t: string, key: string, ghost taken: string, ghost line: string)
      requires Linked() && Wrote(taken, [], []) && IsCommand(taken, line, limits)
      requires ParseLine(line) == Commands.Ok(Commands.Register(t, key))
      modifies `out, `turns, `now, `forwarded, `log, registry`nextSeq, registry`types, registry`subs,
               registry`accepted, registry`fanned, registry.seen, registry.handles.Values
      ensures Linked() && |turns| <= |old(turns)| && Wrote([], [], [])
      ensures var held := Held(old(registry.types), t);
              var sent := if t in old(registry.types) then [] else [Rreg(t, TypeReg(key, registry.daemonId, old(now)))];
              && forwarded == old(forwarded) + sent
              && log == old(log) + [Exchange(
                   taken,
                   [if held.None? || held.value.key == key then Status(REGISTERED, t + " registered")
                    else Status(ALREADY_REGISTERED, t + " already registered")],
                   sent, [held])]
    {
      hide Wrote, Linked, ParseLine, LegalItem, IsCommand, RegisterReply, Propagated;
      assert IsField(t) by { ParsedTypeIsField(line, t, key); }
      ghost var held := Held(registry.types, t);
      ClaimDecided(registry.types, registry.daemonId, t, key, now);
      ghost var before := forwarded;
      var r := Claim(t, key, taken);
      ghost var sent := Propagated(t, r);
      assert forwarded == before + sent;
      var reply := RegisterReply(t, r);
      RegisterIsLegal(t, key, taken, line, held, reply, sent, registry.daemonId, limits);
      assert reply.Status? by { RegisterReplyIsStatus(t, r); }
      WriteStatus(reply.code, reply.text, taken, [], sent);
      assert [] + [reply] == [reply];
      Conclude(Exchange(taken, [reply], sent, [held]), sent);
    }

    method Claim(t: string, key: string, ghost taken: string) returns (r: Registration)
      requires Linked() && Wrote(taken, [], []) && IsField(t)
      modifies `forwarded, registry`types
      ensures Linked() && r == RegisterLocal(old(registry.types), registry.daemonId, t, key, now).0
      ensures Wrote(taken, [], Propagated(t, r)) && forwarded == old(forwarded) + Propagated(t, r)
    {
      hide RenderAll, LegalLog, Stream, Sound;
      r := registry.RegisterLocal(t, key, now);
      assert TypesFit(registry.types);
      if r.Registered? && r.changed {
        forwarded := forwarded + [Rreg(t, r.reg)];
      }
    }

    /** SUBSCRIBE and UNSUBSCRIBE change the index and the connection's own set alike. */
    method HandleSubscribe(t: string, ghost taken: string, ghost line: string)
      requires Linked() && Wrote(taken, [], []) && IsCommand(taken, line, limits)
      requires ParseLine(line) == Commands.Ok(Commands.Subscribe(t))
      modifies `mySubs, `out, `turns, `now, `log, registry`nextSeq, registry`types, registry`subs,
               registry`accepted, registry`fanned, registry.seen, registry.handles.Values
      ensures Linked() && |turns| <= |old(turns)| && Wrote([], [], [])
      ensures log == old(log) + [Exchange(taken, [Status(SUBSCRIBED, "subscribed " + t)], [], [])]
      ensures mySubs == old(mySubs) + {t}
    {
      hide Linked, Wrote, ParseLine, IsCommand;
      Enlist(t, taken);
      ReplyTo(SUBSCRIBED, "subscribed " + t, taken, line);
    }

    method HandleUnsubscribe(t: string, ghost taken: string, ghost line: string)
      requires Linked() && Wrote(taken, [], []) && IsCommand(taken, line, limits)
      requires ParseLine(line) == Commands.Ok(Commands.Unsubscribe(t))
      modifies `mySubs, `out, `turns, `now, `log, registry`nextSeq, registry`types, registry`subs,
               registry`accepted, registry`fanned, registry.seen, registry.handles.Values
      ensures Linked() && |turns| <= |old(turns)| && Wrote([], [], [])
      ensures log == old(log) + [Exchange(taken, [Status(UNSUBSCRIBED, "unsubscribed " + t)], [], [])]
      ensures mySubs == old(mySubs) - {t}
    {
      hide Linked, Wrote, ParseLine, IsCommand;
      Delist(t, taken);
      ReplyTo(UNSUBSCRIBED, "unsubscribed " + t, taken, line);
    }

    method Enlist(t: string, ghost taken: string)
      requires Linked() && Wrote(taken, [], [])
      modifies `mySubs, registry`subs
      ensures Linked() && Wrote(taken, [], []) && mySubs == old(mySubs) + {t}
    {
      hide RenderAll, LegalLog, Stream, Sound, FannedFirst, IsScript;
      registry.SubscribeConn(t, handle);
      mySubs := mySubs + {t};
    }

    method Delist(t: string, ghost taken: string)
      requires Linked() && Wrote(taken, [], [])
      modifies `mySubs, registry`subs
      ensures Linked() && Wrote(taken, [], []) && mySubs == old(mySubs) - {t}
    {
      hide RenderAll, LegalLog, Stream, Sound, FannedFirst, IsScript;
      registry.UnsubscribeConn(t, id);
      mySubs := mySubs - {t};
    }

    /** The one status line that answers a command. */
    method ReplyTo(code: nat, text: string, ghost taken: string, ghost line: string)
      requires Linked() && Wrote(taken, [], []) && IsCommand(taken, line, limits)
      requires IsReply(ParseLine(line), Status(code, text))
      modifies `out, `turns, `now, `log, registry`nextSeq, registry`types, registry`subs, registry`accepted,
               registry`fanned, registry.seen, registry.handles.Values
      ensures Linked() && |turns| <= |old(turns)| && Wrote([], [], [])
      ensures log == old(log) + [Exchange(taken, [Status(code, text)], [], [])]
    {
      hide Wrote, Linked, ParseLine, LegalItem, IsCommand, IsReply;
      ReplyIsLegal(taken, line, Status(code, text), registry.daemonId, limits);
      WriteStatus(code, text, taken, [], []);
      assert [] + [Status(code, text)] == [Status(code, text)];
      Conclude(Exchange(taken, [Status(code, text)], [], []), []);
    }

    /** CAPABILITIES and HELP. */
    method ListTo(code: nat, text: string, lines: seq<string>, ghost taken: string, ghost line: string)
      requires Linked() && Wrote(taken, [], []) && IsCommand(taken, line, limits)
      requires IsReply(ParseLine(line), Listing(code, text, lines))
      modifies `out, `turns, `now, `log, registry`nextSeq, registry`types, registry`subs, registry`accepted,
               registry`fanned, registry.seen, registry.handles.Values
      ensures Linked() && |turns| <= |old(turns)| && Wrote([], [], [])
      ensures log == old(log) + [Exchange(taken, [Listing(code, text, lines)], [], [])]
    {
      hide Wrote, Linked, ParseLine, LegalItem, IsCommand, IsReply, ListingBegun;
      ReplyIsLegal(taken, line, Listing(code, text, lines), registry.daemonId, limits);
      BeginListing(code, text, taken);
      WriteListing(code, text, lines, taken);
      Conclude(Exchange(taken, [Listing(code, text, lines)], [], []), []);
    }

    lemma NamesFit(names: seq<string>)
      requires Linked() && forall t :: t in names ==> t in registry.types
      ensures LfFree(names) && LF !in "type list follows"
    {
    }

    lemma TextsFit()
      requires Linked()
      ensures LfFree(capabilities) && LfFree(help)
      ensures LF !in "capabilities follow" && LF !in "help follows"
    {
    }

    /** LIST TYPES: every type known when the command came, and none that is unknown, in order. */
    method ListTypes(ghost taken: string, ghost line: string) returns (names: seq<string>)
      requires Linked() && Wrote(taken, [], []) && IsCommand(taken, line, limits)
      requires ParseLine(line) == Commands.Ok(Commands.ListTypes)
      modifies `out, `turns, `now, `log, registry`nextSeq, registry`types, registry`subs, registry`accepted,
               registry`fanned, registry.seen, registry.handles.Values
      ensures Linked() && |turns| <= |old(turns)| && Wrote([], [], [])
      ensures log == old(log) + [Exchange(taken, [Listing(TYPE_LIST, "type list follows", names)], [], [])]
      ensures Ascending(names)
      ensures forall t :: t in old(registry.types) ==> t in names
      ensures forall t :: t in names ==> t in registry.types
    {
      hide Wrote, Linked, ParseLine, LegalItem, IsCommand, ListingBegun, Ascending;
      BeginListing(TYPE_LIST, "type list follows", taken);
      names := registry.ListTypes();
      NamesFit(names);
      WriteListing(TYPE_LIST, "type list follows", names, taken);
      ReplyIsLegal(taken, line, Listing(TYPE_LIST, "type list follows", names), registry.daemonId, limits);
      Conclude(Exchange(taken, [Listing(TYPE_LIST, "type list follows", names)], [], []), []);
    }

    /** One command line, to completion.  `more` is false after QUIT and when the stream ended. */
    method HandleCommand(line: string, ghost taken: string) returns (more: bool)
      requires Linked() && Wrote(taken, [], []) && IsCommand(taken, line, limits)
      modifies `rbuf, `chunks, `mySubs, `out, `turns, `now, `forwarded, `log, registry`nextSeq, registry`types,
               registry`subs, registry`accepted, registry`fanned, registry.seen, registry.handles.Values
      ensures Linked() && |turns| <= |old(turns)|
      ensures |chunks| <= |old(chunks)| && (|chunks| == |old(chunks)| ==> |rbuf| <= |old(rbuf)|)
      ensures |log| == |old(log)| + 1 && old(log) <= log && Kept()
      ensures (more ==> Wrote([], [], [])) && (more <==> !IsLast(log[|log| - 1]))
      ensures !log[|log| - 1].Told? && (log[|log| - 1].Broken? ==> log[|log| - 1].units == [INVITE])
      ensures mySubs == match ParseLine(line)
                        case Ok(Subscribe(t)) => old(mySubs) + {t}
                        case Ok(Unsubscribe(t)) => old(mySubs) - {t}
                        case _ => old(mySubs)
    {
      hide Linked, Wrote, Kept, Commands.Parse, IsCommand, IsReply, Ascending, IsLast;
      more := true;
      var text := Utf8.Decode(line);
      var parsed := Commands.Parse(text);
      assert parsed == ParseLine(line);
      if parsed.Err? || IsPlain(parsed.cmd) {
        ghost var reply := HandlePlain(parsed, taken, line);
        PlainIsLast(line, reply);
        more := parsed.Err? || !parsed.cmd.Quit?;
      } else if !parsed.cmd.Publish? {
        HandleTyped(parsed.cmd, taken, line);
        WroteIsKept();
        return;
      } else {
        var eof := HandlePublish(parsed.cmd.typeName, parsed.cmd.key, taken, line);
        if eof {
          BreakIsLast(log[|log| - 1]);
          return false;
        }
      }
      EndsOrNot(log[|log| - 1]);
      WroteIsKept();
    }

    /** REGISTER, SUBSCRIBE and UNSUBSCRIBE. */
    method HandleTyped(cmd: Commands.Command, ghost taken: string, ghost line: string)
      requires Linked() && Wrote(taken, [], []) && IsCommand(taken, line, limits)
      requires ParseLine(line) == Commands.Ok(cmd) && (cmd.Register? || cmd.Subscribe? || cmd.Unsubscribe?)
      modifies `mySubs, `out, `turns, `now, `forwarded, `log, registry`nextSeq, registry`types, registry`subs,
               registry`accepted, registry`fanned, registry.seen, registry.handles.Values
      ensures Linked() && |turns| <= |old(turns)| && Wrote([], [], [])
      ensures |log| == |old(log)| + 1 && old(log) <= log && log[|log| - 1].Exchange? && !IsLast(log[|log| - 1])
      ensures mySubs == if cmd.Subscribe? then old(mySubs) + {cmd.typeName}
                        else if cmd.Unsubscribe? then old(mySubs) - {cmd.typeName} else old(mySubs)
    {
      hide Linked, Wrote, ParseLine, IsCommand, IsLast;
      if cmd.Register? {
        HandleRegister(cmd.typeName, cmd.key, taken, line);
      } else if cmd.Subscribe? {
        HandleSubscribe(cmd.typeName, taken, line);
      } else {
        HandleUnsubscribe(cmd.typeName, taken, line);
      }
      EndsOrNot(log[|log| - 1]);
    }

    /** A refused line, or a command that only asks for text: the one reply it gets. */
    method HandlePlain(parsed: Commands.Parsed, ghost taken: string, ghost line: string) returns (ghost reply: Unit)
      requires Linked() && Wrote(taken, [], []) && IsCommand(taken, line, limits)
      requires parsed == ParseLine(line) && (parsed.Err? || IsPlain(parsed.cmd))
      modifies `out, `turns, `now, `log, registry`nextSeq, registry`types, registry`subs, registry`accepted,
               registry`fanned, registry.seen, registry.handles.Values
      ensures Linked() && |turns| <= |old(turns)| && Wrote([], [], [])
      ensures log == old(log) + [Exchange(taken, [reply], [], [])]
      ensures parsed.Err? ==> reply == Status(parsed.code, parsed.reason)
      ensures parsed == Commands.Ok(Commands.Quit) ==> reply == Status(CLOSING, "closing connection")
      ensures parsed == Commands.Ok(Commands.Capabilities) ==>
                reply == Listing(INFO_FOLLOWS, "capabilities follow", capabilities)
      ensures parsed == Commands.Ok(Commands.Help) ==> reply == Listing(INFO_FOLLOWS, "help follows", help)
      ensures parsed == Commands.Ok(Commands.ListTypes) ==>
                reply.Listing? && Ascending(reply.lines) && forall t :: t in old(registry.types) ==> t in reply.lines
    {
      hide Linked, Wrote, ParseLine, IsCommand, Ascending;
      TextsFit();
      if parsed.Err? {
        ReplyTo(parsed.code, parsed.reason, taken, line);
        reply := Status(parsed.code, parsed.reason);
      } else if parsed.cmd.Quit? {
        ReplyTo(CLOSING, "closing connection", taken, line);
        reply := Status(CLOSING, "closing connection");
      } else if parsed.cmd.Capabilities? {
        ListTo(INFO_FOLLOWS, "capabilities follow", capabilities, taken, line);
        reply := Listing(INFO_FOLLOWS, "capabilities follow", capabilities);
      } else if parsed.cmd.Help? {
        ListTo(INFO_FOLLOWS, "help follows", help, taken, line);
        reply := Listing(INFO_FOLLOWS, "help follows", help);
      } else {
        var names := ListTypes(taken, line);
        reply := Listing(TYPE_LIST, "type list follows", names);
      }
    }

    /** Of these replies only that to QUIT closes the connection. */
    lemma PlainIsLast(line: string, reply: Unit)
      requires ParseLine(line).Err? ==> reply == Status(ParseLine(line).code, ParseLine(line).reason)
      requires ParseLine(line).Ok? ==>
                 (ParseLine(line).cmd.Quit? ==> reply == Status(CLOSING, "closing connection"))
                 && (!ParseLine(line).cmd.Quit? ==> reply.Listing?)
      ensures reply == Status(CLOSING, "closing connection") <==> ParseLine(line) == Commands.Ok(Commands.Quit)
    {
      hide Commands.Parse;
      Commands.ParsedIsValid(Utf8.Decode(line));
    }

    ghost method WroteIsKept()
      requires Wrote([], [], [])
      ensures Kept()
    {
      hide RenderAll, LegalLog, Stream;
      assert UnitsOf(log) + [] == UnitsOf(log) && SentIn(log) + [] == SentIn(log) && TakenIn(log) + [] == TakenIn(log);
    }

    // --- pushes -----------------------------------------------------------------------------------------

    /** As `Wrote([], [], [])`, but the notices `due` are drained and not yet written. */
    ghost predicate Owes(due: seq<Notice>)
      reads `out, `log, `rbuf, `chunks, `forwarded, handle`written, handle`noticed
    {
      OwesAt(out, due)
    }

    /** The same, with the output as it was when it was `written`. */
    ghost predicate OwesAt(written: string, due: seq<Notice>)
      reads `log, `rbuf, `chunks, `forwarded, handle`written, handle`noticed
    {
      && written == Greeting(registry.daemonId) + RenderAll(UnitsOf(log))
      && input == TakenIn(log) + Stream(rbuf, chunks)
      && forwarded == SentIn(log)
      && MessagesIn(log) == handle.written && NoticesIn(log) + due == handle.noticed
      && LegalLog(log, registry.daemonId, limits) && Unbroken(log)
    }

    lemma Listed()
      requires Linked()
      ensures handle in registry.handles.Values
    {
    }

    ghost method WroteIsOwes()
      ensures Wrote([], [], []) <==> Owes([])
    {
      hide RenderAll, LegalLog, Stream;
      assert UnitsOf(log) + [] == UnitsOf(log) && SentIn(log) + [] == SentIn(log) && TakenIn(log) + [] == TakenIn(log);
      assert NoticesIn(log) + [] == NoticesIn(log);
    }

    /** Emit the pending `102 DROP` notices: one for each counter, with its count. */
    method FlushDrops() returns (ghost drained: seq<Notice>)
      requires Linked() && Wrote([], [], [])
      modifies `out, `turns, `now, `log, registry`nextSeq, registry`types, registry`subs, registry`accepted,
               registry`fanned, registry.seen, registry.handles.Values
      ensures Linked() && |turns| <= |old(turns)| && Wrote([], [], [])
      ensures Drains(drained, old(handle.drops)) && log == old(log) + ToldOf(drained)
    {
      hide Wrote, Owes, Linked, Drains;
      WroteIsOwes();
      Listed();
      var notices := Drain();
      drained := notices;
      assert notices[..0] == [];
      for i := 0 to |notices|
        invariant Linked() && |turns| <= |old(turns)| && Owes(notices[i..])
        invariant log == old(log) + ToldOf(notices[..i])
      {
        assert notices[i..] == [notices[i]] + notices[i + 1..];
        assert notices[..i + 1][..i] == notices[..i];
        WriteNotice(notices[i], notices[i + 1..]);
      }
      assert notices[|notices|..] == [] && notices[..|notices|] == notices;
      WroteIsOwes();
    }

    method Drain() returns (notices: seq<Notice>)
      requires Linked() && Owes([])
      modifies handle
      ensures Linked() && Owes(notices) && Drains(notices, old(handle.drops))
    {
      hide RenderAll, LegalLog, Stream, Sound, Drains;
      ghost var q := handle.State();
      notices := handle.DrainDrops();
      FlushSound(q, notices, registry.daemonId);
      assert NoticesIn(log) + [] == NoticesIn(log);
    }

    lemma NoticeFits(n: Notice, due: seq<Notice>)
      requires Linked() && Owes([n] + due)
      ensures IsField(n.typeName)
    {
      assert n in handle.noticed;
    }

    method WriteNotice(n: Notice, ghost due: seq<Notice>)
      requires Linked() && Owes([n] + due)
      modifies `out, `turns, `now, `log, registry`nextSeq, registry`types, registry`subs, registry`accepted,
               registry`fanned, registry.seen, registry.handles.Values
      ensures Linked() && |turns| <= |old(turns)| && Owes(due)
      ensures log == old(log) + [Told(Dropped(n))]
    {
      hide Linked, OwesAt, Render, IsField;
      NoticeFits(n, due);
      ghost var before := out;
      WriteDrop(n);
      EnterNotice(before, n, due);
    }

    method WriteDrop(n: Notice)
      requires Linked()
      modifies `out, `turns, `now, registry`nextSeq, registry`types, registry`subs, registry`accepted,
               registry`fanned, registry.seen, registry.handles.Values
      ensures Linked() && |turns| <= |old(turns)| && out == old(out) + Render(Unit.Push(Dropped(n)))
      ensures Undisturbed()
    {
      hide Linked, StatusLine, DropText;
      WriteLine(DROP, DropText(n));
    }

    /** The notice just written enters the history. */
    ghost method EnterNotice(before: string, n: Notice, due: seq<Notice>)
      requires out == before + Render(Unit.Push(Dropped(n)))
      requires OwesAt(before, [n] + due) && IsField(n.typeName)
      modifies `log
      ensures Owes(due) && log == old(log) + [Told(Dropped(n))]
    {
      hide LegalLog, RenderAll, Stream, Render, IsField, UnitsOf, TakenIn, SentIn, MessagesIn, NoticesIn, Unbroken;
      PushIsLegal(log, Dropped(n), registry.daemonId, limits);
      LogSnoc(log, Told(Dropped(n)));
      assert NoticesIn(log) + ([n] + due) == NoticesIn(log) + [n] + due;
      log := log + [Told(Dropped(n))];
    }

    /** Deliver the oldest queued message. */
    method WriteOutbound()
      requires Linked() && Wrote([], [], []) && handle.items != []
      modifies `out, `turns, `now, `log, registry`nextSeq, registry`types, registry`subs, registry`accepted,
               registry`fanned, registry.seen, registry.handles.Values
      ensures Linked() && |turns| <= |old(turns)| && Wrote([], [], [])
      ensures log == old(log) + [Told(Delivered(old(handle.items)[0]))]
    {
      hide Linked, Wrote;
      Listed();
      var m := Dequeue();
      WriteDelivery(m);
    }

    /** As `Wrote([], [], [])`, but `m` is taken from the queue and not yet in the history, and the output
        before it was `written`. */
    ghost predicate HeldAt(written: string, m: Message)
      reads `log, `rbuf, `chunks, `forwarded, handle`written, handle`noticed
    {
      && written == Greeting(registry.daemonId) + RenderAll(UnitsOf(log))
      && input == TakenIn(log) + Stream(rbuf, chunks)
      && forwarded == SentIn(log)
      && MessagesIn(log) + [m] == handle.written && NoticesIn(log) == handle.noticed
      && LegalLog(log, registry.daemonId, limits) && Unbroken(log)
    }

    ghost predicate Holding(m: Message)
      reads `out, `log, `rbuf, `chunks, `forwarded, handle`written, handle`noticed
    {
      HeldAt(out, m)
    }

    method Dequeue() returns (m: Message)
      requires Linked() && Wrote([], [], []) && handle.items != []
      modifies handle
      ensures Linked() && m == old(handle.items)[0] && Holding(m) && MessageFits(m, registry.daemonId)
    {
      hide RenderAll, LegalLog, Stream, Sound;
      TakeSound(handle.State(), registry.daemonId);
      assert UnitsOf(log) + [] == UnitsOf(log) && SentIn(log) + [] == SentIn(log) && TakenIn(log) + [] == TakenIn(log);
      m := handle.Receive();
    }

    method WriteDelivery(m: Message)
      requires Linked() && Holding(m) && MessageFits(m, registry.daemonId)
      modifies `out, `turns, `now, `log, registry`nextSeq, registry`types, registry`subs, registry`accepted,
               registry`fanned, registry.seen, registry.handles.Values
      ensures Linked() && |turns| <= |old(turns)| && Wrote([], [], [])
      ensures log == old(log) + [Told(Delivered(m))]
    {
      hide Linked, Wrote, StatusLine, Block, MsgText, RenderAll, LegalLog, Stream;
      var block := EncodeBody(m.body);
      ghost var before := out;
      WriteRaw(StatusLine(MSG, MsgText(m)) + CRLF + block);
      assert out == before + Render(Unit.Push(Delivered(m)));
      EnterDelivery(before, m);
    }

    /** The delivery just written enters the history. */
    ghost method EnterDelivery(before: string, m: Message)
      requires out == before + Render(Unit.Push(Delivered(m)))
      requires HeldAt(before, m) && MessageFits(m, registry.daemonId)
      modifies `log
      ensures Wrote([], [], []) && log == old(log) + [Told(Delivered(m))]
    {
      hide LegalLog, RenderAll, Stream, Render;
      PushIsLegal(log, Delivered(m), registry.daemonId, limits);
      LogSnoc(log, Told(Delivered(m)));
      log := log + [Told(Delivered(m))];
      assert UnitsOf(log) + [] == UnitsOf(log) && SentIn(log) + [] == SentIn(log) && TakenIn(log) + [] == TakenIn(log);
    }

    method Greet()
      requires Linked() && out == [] && log == [] && forwarded == [] && rbuf == [] && input == Flat(chunks)
      requires handle.written == [] && handle.noticed == []
      modifies `out, `turns, `now, registry`nextSeq, registry`types, registry`subs, registry`accepted,
               registry`fanned, registry.seen, registry.handles.Values
      ensures Linked() && |turns| <= |old(turns)| && Wrote([], [], [])
    {
      hide Linked, StatusLine;
      WriteRaw(StatusLine(SERVICE_READY, registry.daemonId + " macro-bus MBP/1.0 ready") + CRLF);
      assert RenderAll([] + []) == [];
    }

    /** Take a buffered command line, accounting for the octets that left the buffer. */
    method TakeCommand() returns (take: LineTake, ghost taken: string)
      requires Linked() && Wrote([], [], [])
      modifies `rbuf
      ensures Linked() && Wrote(taken, [], [])
      ensures (take, rbuf) == TakeLine(old(rbuf), limits.commandLine)
      ensures take.Line? ==> IsCommand(taken, take.line, limits) && |rbuf| < |old(rbuf)|
      ensures take.TooLong? ==> TooLongAt(taken)
      ensures take.Need? ==> taken == [] && rbuf == old(rbuf)
    {
      hide Linked, RenderAll, UnitsOf, LegalLog, Flat, TakeLine, IsLine;
      ghost var before := rbuf;
      take := TakeBuffered(limits.commandLine);
      taken := Removed(before, limits.commandLine);
      assert TakenIn(log) + [] + (before + Flat(chunks)) == TakenIn(log) + taken + (rbuf + Flat(chunks));
    }

    /** A command line over the limit was taken, or begins the buffer. */
    ghost predicate TooLongAt(taken: string)
      reads `rbuf
    {
      IsOverLong(taken, limits.commandLine) || (taken == [] && LF !in rbuf && |rbuf| > limits.commandLine)
    }

    /** An over-long command line ends the connection after one 500. */
    method RefuseLine(ghost taken: string)
      requires Linked() && Wrote(taken, [], [])
      modifies `out, `turns, `now, `log, registry`nextSeq, registry`types, registry`subs, registry`accepted,
               registry`fanned, registry.seen, registry.handles.Values
      ensures Linked() && Kept() && log == old(log) + [Broken(taken, [LINE_TOO_LONG])]
    {
      hide Linked, Wrote, Kept;
      WriteStatus(SYNTAX, LINE_TOO_LONG.text, taken, [], []);
      assert [] + [LINE_TOO_LONG] == [LINE_TOO_LONG];
      Break(Broken(taken, [LINE_TOO_LONG]));
    }

    /** Wait for input, a queued message or a drop notice; false at the end of input. */
    method Wait() returns (open: bool)
      requires Linked() && Wrote([], [], [])
      modifies `rbuf, `chunks, `out, `turns, `now, `log, registry`nextSeq, registry`types, registry`subs,
               registry`accepted, registry`fanned, registry.seen, registry.handles.Values
      ensures Linked() && Wrote([], [], [])
      ensures open ==> |chunks| + |turns| < |old(chunks)| + |old(turns)|
      ensures |chunks| + |turns| <= |old(chunks)| + |old(turns)|
      ensures old(turns) != [] && old(turns)[0].wake == Queued && old(handle.items) != [] ==>
                open && log == old(log) + [Told(Delivered(old(handle.items)[0]))]
      ensures !open ==> chunks == [] && rbuf == old(rbuf)
      ensures log == old(log) || (|log| == |old(log)| + 1 && old(log) <= log && log[|old(log)|].Told?)
    {
      hide Linked, Wrote;
      var wake := if turns == [] then Input else turns[0].wake;
      Sleep();
      if wake == Queued && handle.items != [] {
        WriteOutbound();
        return true;
      }
      if wake == DropsNoted && handle.notified {
        Listed();
        Forget();
        return true;
      }
      open := Read();
    }

    method Sleep()
      requires Linked() && Wrote([], [], [])
      modifies `turns, `now, registry`nextSeq, registry`types, registry`subs, registry`accepted,
               registry`fanned, registry.seen, registry.handles.Values
      ensures Linked() && Wrote([], [], []) && Undisturbed()
      ensures |turns| <= |old(turns)| && (old(turns) != [] ==> |turns| < |old(turns)|)
    {
      hide Linked, RenderAll, LegalLog, Stream;
      Others();
    }

    method Forget()
      requires Linked() && Wrote([], [], [])
      modifies handle`notified
      ensures Linked() && Wrote([], [], [])
    {
      hide RenderAll, LegalLog, Stream, Sound, FannedFirst, IsScript;
      handle.notified := false;
    }

    method Read() returns (open: bool)
      requires Linked() && Wrote([], [], [])
      modifies `rbuf, `chunks
      ensures Linked() && Wrote([], [], [])
      ensures |chunks| <= |old(chunks)| && (open ==> |chunks| < |old(chunks)|)
      ensures !open ==> chunks == [] && rbuf == old(rbuf)
    {
      hide Linked, RenderAll, LegalLog;
      if chunks == [] {
        return false;
      }
      StreamStep(rbuf, chunks);
      rbuf, chunks := rbuf + chunks[0], chunks[1..];
      return true;
    }

    // --- the loop -------------------------------------------------------------------------------------------

    /** Why the connection ended: QUIT or a body that broke it off, a line over the limit, or no more input
        with every complete line answered. */
    ghost predicate Finished()
      reads this
    {
      || (log != [] && IsLast(log[|log| - 1])
          && (log[|log| - 1].units == [LINE_TOO_LONG] && log[|log| - 1].Broken? ==> TooLongAt(log[|log| - 1].taken)))
      || (chunks == [] && TakeLine(rbuf, limits.commandLine).0.Need?)
    }

    /** Serve the connection until the client quits, the stream ends, or a line is too long. */
    method Serve()
      requires Linked() && out == [] && log == [] && forwarded == [] && rbuf == [] && input == Flat(chunks)
      requires handle.written == [] && handle.noticed == []
      modifies `rbuf, `chunks, `mySubs, `out, `turns, `now, `forwarded, `log, registry`nextSeq, registry`types,
               registry`subs, registry`accepted, registry`fanned, registry.seen, registry.handles.Values
      ensures Linked() && Kept() && Finished() && OnlyLastIsLast(log)
    {
      hide Linked, Wrote, Kept, Finished, OnlyLastIsLast, IsLast;
      Greet();
      var open := true;
      while open
        invariant Linked() && if open then Wrote([], [], []) && NoneLast(log)
                              else Kept() && Finished() && OnlyLastIsLast(log)
        decreases open, |chunks| + |turns|, |rbuf|
      {
        ghost var before := log;
        open := ServeOnce();
        LastStaysLast(before, log);
      }
    }

    /** One turn of the loop: a notice for every counter pending, then a buffered command or else one wait. */
    method ServeOnce() returns (open: bool)
      requires Linked() && Wrote([], [], [])
      modifies `rbuf, `chunks, `mySubs, `out, `turns, `now, `forwarded, `log, registry`nextSeq, registry`types,
               registry`subs, registry`accepted, registry`fanned, registry.seen, registry.handles.Values
      ensures Linked() && if open then Wrote([], [], []) else Kept() && Finished()
      ensures open ==> |chunks| + |turns| <= |old(chunks)| + |old(turns)|
      ensures open && |chunks| + |turns| == |old(chunks)| + |old(turns)| ==> |rbuf| < |old(rbuf)|
      ensures exists drained :: Drains(drained, old(handle.drops)) && old(log) + ToldOf(drained) <= log
      ensures (forall i :: |old(log)| <= i < |log| - 1 ==> log[i].Told?) && (open ==> NoneLast(log[|old(log)|..]))
      ensures TakeLine(old(rbuf), limits.commandLine).0.Need? || (log != [] && !log[|log| - 1].Told?)
    {
      hide Linked, Wrote, Kept, Finished, TakeLine, Drains, IsLast;
      ghost var drained := FlushDrops();
      assert Drains(drained, old(handle.drops)) && log == old(log) + ToldOf(drained);
      ghost var flushed := log;
      AllTold(drained);
      assert forall i :: |old(log)| <= i < |log| ==> log[i] in ToldOf(drained);
      open := AnswerOrWait();
      NoticesAreNotLast(old(log), flushed, log);
    }

    /** A buffered command line is answered, or refused if it is over-long; without one the connection waits. */
    method AnswerOrWait() returns (open: bool)
      requires Linked() && Wrote([], [], [])
      modifies `rbuf, `chunks, `mySubs, `out, `turns, `now, `forwarded, `log, registry`nextSeq, registry`types,
               registry`subs, registry`accepted, registry`fanned, registry.seen, registry.handles.Values
      ensures Linked() && if open then Wrote([], [], []) else Kept() && Finished()
      ensures open ==> |chunks| + |turns| <= |old(chunks)| + |old(turns)|
      ensures open && |chunks| + |turns| == |old(chunks)| + |old(turns)| ==> |rbuf| < |old(rbuf)|
      ensures old(log) <= log && |log| <= |old(log)| + 1
      ensures open && |log| > |old(log)| ==> !IsLast(log[|old(log)|])
      ensures TakeLine(old(rbuf), limits.commandLine).0.Need? || (|log| > |old(log)| && !log[|old(log)|].Told?)
    {
      hide Linked, Wrote, Kept, TakeLine, IsCommand, TooLongAt;
      var take, taken := TakeCommand();
      if take.Line? {
        open := HandleCommand(take.line, taken);
      } else if take.TooLong? {
        RefuseLine(taken);
        open := false;
      } else {
        open := Wait();
        if !open {
          WroteIsKept();
        }
      }
    }

    /** The whole life of the connection.  Its output is the greeting and then whole pushes and whole
        exchanges; every message offered to it was written, queued or counted; and when it ends no
        index entry mentions it. */
    method Run()
      requires Linked() && out == [] && log == [] && forwarded == [] && rbuf == [] && input == Flat(chunks)
      requires handle.written == [] && handle.noticed == []
      modifies `rbuf, `chunks, `mySubs, `out, `turns, `now, `forwarded, `log, registry`nextSeq, registry`types,
               registry`subs, registry`accepted, registry`fanned, registry.seen, registry.handles.Values
      ensures registry.Valid() && Kept() && Finished() && Sound(handle.State(), registry.daemonId) && !handle.open
      ensures OnlyLastIsLast(log)
      ensures forall t :: id !in Listeners(Ids(registry.subs), t)
      ensures FannedFirst(forwarded, registry.fanned)
    {
      hide Linked, Kept, Finished;
      Serve();
      Listed();
      Leave();
    }

    method Leave()
      requires Linked() && Kept()
      modifies `mySubs, registry`subs, handle`open
      ensures registry.Valid() && Kept() && Sound(handle.State(), registry.daemonId) && !handle.open
      ensures (Finished() <==> old(Finished())) && forall t :: id !in Listeners(Ids(registry.subs), t)
      ensures FannedFirst(forwarded, registry.fanned)
    {
      hide RenderAll, LegalLog, Stream, FannedFirst, IsScript;
      var subs := mySubs;
      mySubs := {};
      ghost var before := Ids(registry.subs);
      registry.Remove(id, subs);
      LeavesNoEntry(before, subs);
      CloseSound(handle.State(), registry.daemonId);
      handle.open := false;
    }

    lemma LeavesNoEntry(before: Index, subs: set<string>)
      requires forall t :: t in subs <==> id in Listeners(before, t)
      ensures forall t :: id !in Listeners(RemoveConn(before, id, subs), t)
    {
      forall t ensures id !in Listeners(RemoveConn(before, id, subs), t) {
        assert t in subs <==> id in Listeners(before, t);
      }
    }
  }
}
