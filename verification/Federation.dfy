/** The federation engine of one daemon: reading a peer's stream, applying each frame and
    broadcasting what is new to the dialed peers. */
module Federation {
  import opened Text
  import opened Messages
  import opened Ownership
  import opened Lines
  import opened Framing
  import opened Registries
  import opened Cluster
  import opened Peering

  // --- one frame at a time, as functions --------------------------------------------------------

  type Queues = map<string, seq<Frame>>

  /** A daemon's registry and its queues to the dialed peers that are up. */
  datatype Hub = Hub(reg: RegState, peers: Queues)

  function SendOne(queue: seq<Frame>, f: Frame): seq<Frame>
  {
    if |queue| < PEER_QUEUE_DEPTH then queue + [f] else queue
  }

  function SendAll(peers: Queues, f: Frame, exclude: Option<string>): Queues
  {
    map id | id in peers :: if Some(id) != exclude then SendOne(peers[id], f) else peers[id]
  }

  /** Apply `f` and, if it was news, broadcast it to everyone but the peer it came from. */
  function Handle(h: Hub, from: string, f: Frame): Hub
  {
    match f
    case Feed(m) =>
      var (isNew, reg) := Accept(h.reg, m);
      if isNew then Hub(FanOut(reg, m), SendAll(h.peers, f, Some(from))) else h
    case Rreg(t, reg) =>
      var (effective, types) := ApplyRemote(h.reg.types, t, reg);
      if effective.Some? then Hub(h.reg.(types := types), SendAll(h.peers, Rreg(t, effective.value), Some(from)))
      else h
  }

  function HandleAll(h: Hub, from: string, fs: seq<Frame>): Hub
    decreases |fs|
  {
    if fs == [] then h else HandleAll(Handle(h, from, fs[0]), from, fs[1..])
  }

  function Given(h: Hub, from: string, f: Option<Frame>): Hub
  {
    if f.Some? then Handle(h, from, f.value) else h
  }

  lemma HandleListed(h: Hub, from: string, f: Option<Frame>, fs: seq<Frame>)
    ensures HandleAll(h, from, Listed(f) + fs) == HandleAll(Given(h, from, f), from, fs)
  {
    if f.Some? {
      assert ([f.value] + fs)[1..] == fs;
    } else {
      assert [] + fs == fs;
    }
  }

  // --- the reader of one peer stream --------------------------------------------------------------

  class PeerReader {
    /** The stream up to its end, as far as it has not been read yet. */
    var rest: string

    constructor (stream: string)
      ensures rest == stream
    {
      rest := stream;
    }

    method ReadLine() returns (line: Option<string>)
      modifies this
      ensures match FedLine(old(rest))
              case None => line == None && rest == old(rest)
              case Some((l, after)) => line == Some(l) && rest == after
    {
      if rest == [] {
        return None;
      }
      var buf;
      match FirstLf(rest) {
        case None =>
          buf, rest := rest, [];
        case Some(p) =>
          buf, rest := rest[..p + 1], rest[p + 1..];
          assert buf[..p] == old(rest)[..p];
      }
      if buf[|buf| - 1] == LF {
        buf := buf[..|buf| - 1];
      }
      if buf != [] && buf[|buf| - 1] == CR {
        buf := buf[..|buf| - 1];
      }
      return Some(buf);
    }

    /** The unstuffed lines iff they fit in `max`; an oversized body is still drained. */
    method ReadBody(max: nat) returns (r: BodyRead)
      modifies this
      ensures r == FedBody(old(rest), max)
      ensures r.Body? ==> rest == r.rest
    {
      var lines: seq<string> := [];
      var total := 0;
      var tooLarge := false;
      ghost var raw: seq<string> := [];
      assert FedSplit(rest).Some? ==> raw + FedSplit(rest).value.0 == FedSplit(rest).value.0;
      while true
        invariant FedSplit(old(rest)) == match FedSplit(rest)
                                         case None => None
                                         case Some((more, after)) => Some((raw + more, after))
        invariant total == BodySize(UnstuffAll(raw)) && (tooLarge <==> total > max)
        invariant !tooLarge ==> lines == UnstuffAll(raw)
        decreases |rest|
      {
        var next := ReadLine();
        if next == None {
          return Eof;
        }
        var line := next.value;
        if line == TERMINATOR {
          assert raw + [] == raw;
          break;
        }
        var unstuffed := UnstuffLine(line);
        AppendRaw(raw, line, FedSplit(rest));
        total := total + |unstuffed| + 1;
        if total > max {
          tooLarge := true;
        }
        if !tooLarge {
          lines := lines + [unstuffed];
        }
        raw := raw + [line];
      }
      return Body(if tooLarge then None else Some(lines), rest);
    }
  }

  lemma SerializeNext(bytes: string, queue: seq<Frame>)
    requires queue != []
    ensures bytes + SerializeAll(queue) == bytes + Serialize(queue[0]) + SerializeAll(queue[1..])
  {
  }

  lemma SerializeNothing()
    ensures SerializeAll([]) == []
  {
  }

  // --- pushing a snapshot --------------------------------------------------------------------------

  function SendEach(queue: seq<Frame>, fs: seq<Frame>): seq<Frame>
  {
    if fs == [] then queue else SendOne(SendEach(queue, fs[..|fs| - 1]), fs[|fs| - 1])
  }

  lemma SnapshotSnoc(records: seq<Frame>, types: Table, todo: set<string>, t: string)
    requires t in todo && todo <= types.Keys && IsSnapshot(records, types - todo)
    ensures IsSnapshot(records + [Rreg(t, types[t])], types - (todo - {t}))
  {
    var before, after := types - todo, types - (todo - {t});
    assert after.Keys == before.Keys + {t};
    assert |after| == |after.Keys| && |before| == |before.Keys|;
    assert forall f :: f in records + [Rreg(t, types[t])] <==> f in records || f == Rreg(t, types[t]);
  }

  /** Records pushed to a queue survive exactly up to its depth. */
  lemma {:induction false} SnapshotFitsIff(queue: seq<Frame>, fs: seq<Frame>)
    requires |queue| <= PEER_QUEUE_DEPTH
    ensures SendEach(queue, fs)
         == queue + fs[..if |queue| + |fs| <= PEER_QUEUE_DEPTH then |fs| else PEER_QUEUE_DEPTH - |queue|]
    ensures SendEach(queue, fs) == queue + fs <==> |queue| + |fs| <= PEER_QUEUE_DEPTH
  {
    if fs == [] {
      assert queue + [] == queue;
    } else {
      SnapshotFitsIff(queue, fs[..|fs| - 1]);
      assert fs[..|fs| - 1] + [fs[|fs| - 1]] == fs;
    }
  }

  // --- the engine ------------------------------------------------------------------------------------

  class Engine {
    const registry: Registry
    const maxMessageBytes: nat
    /** Dialed peers that are up, with the frames queued for each. */
    var peers: Queues

    constructor (registry: Registry, maxMessageBytes: nat)
      ensures this.registry == registry && this.maxMessageBytes == maxMessageBytes && peers == map[]
    {
      this.registry, this.maxMessageBytes, peers := registry, maxMessageBytes, map[];
    }

    ghost function State(): Hub
      reads this, registry, registry.seen, registry.handles.Values
    {
      Hub(registry.State(), peers)
    }

    /** Offer `f` to every peer queue except the excluded one; a full queue loses it. */
    method Broadcast(f: Frame, exclude: Option<string>)
      modifies this
      ensures peers == SendAll(old(peers), f, exclude)
    {
      var todo := peers.Keys;
      while todo != {}
        invariant todo <= peers.Keys && peers.Keys == old(peers).Keys
        invariant forall id :: id in peers ==>
          peers[id] == if id !in todo && Some(id) != exclude then SendOne(old(peers)[id], f) else old(peers)[id]
        decreases todo
      {
        var id :| id in todo;
        todo := todo - {id};
        if exclude == Some(id) {
          continue;
        }
        if |peers[id]| < PEER_QUEUE_DEPTH {
          peers := peers[id := peers[id] + [f]];
        }
      }
    }

    method HandleRreg(args: string, from: string)
      requires registry.Valid()
      modifies this, registry`types
      ensures registry.Valid()
      ensures State() == Given(old(State()), from, ParseRreg(args))
    {
      hide Field, ParseUnsigned, SendAll, Registries.Queues, Ids, Refers;
      var t, key, origin := Field(args, 0), Field(args, 1), Field(args, 2);
      var ts := ParseUnsigned(Field(args, 3), U64_LIMIT);
      if ts == None || t == [] || key == [] || origin == [] {
        return;
      }
      var effective := registry.ApplyRemoteRegistration(t, TypeReg(key, origin, ts.value));
      if effective.Some? {
        Broadcast(Rreg(t, effective.value), Some(from));
      }
    }

    /** Deliver locally and dedup; if new, forward to every peer except the source. */
    method Ingest(m: Message, from: string)
      requires registry.Valid()
      modifies this, registry`accepted, registry`fanned, registry.seen, registry.handles.Values
      ensures registry.Valid()
      ensures State() == Handle(old(State()), from, Feed(m))
    {
      var isNew := registry.IngestRemote(m);
      if isNew {
        Broadcast(Feed(m), Some(from));
      }
    }

    /** False when the stream ended inside the body, which ends the link. */
    method HandleFeed(args: string, reader: PeerReader, from: string) returns (ok: bool)
      requires registry.Valid()
      modifies this, reader, registry`accepted, registry`fanned, registry.seen, registry.handles.Values
      ensures registry.Valid()
      ensures ok <==> FedBody(old(reader.rest), maxMessageBytes).Body?
      ensures !ok ==> State() == old(State())
      ensures ok ==> reader.rest == FedBody(old(reader.rest), maxMessageBytes).rest
      ensures ok ==>
                State() == Given(old(State()), from, ParseFeed(args, FedBody(old(reader.rest), maxMessageBytes).lines))
    {
      var t, id, origin := Field(args, 0), Field(args, 1), Field(args, 2);
      var body := reader.ReadBody(maxMessageBytes);
      if body.Eof? {
        return false;
      }
      if t == [] || id == [] || origin == [] || body.lines == None {
        return true;
      }
      Ingest(Message(t, id, origin, body.lines.value), from);
      return true;
    }

    /** One turn of the loop; false when the link has ended. */
    method ReadFrame(reader: PeerReader, from: string) returns (more: bool)
      requires registry.Valid()
      modifies this, reader, registry`types, registry`accepted, registry`fanned, registry.seen, registry.handles.Values
      ensures registry.Valid()
      ensures match ReadTurn(old(reader.rest), maxMessageBytes)
              case Stop => !more && State() == old(State())
              case Go(f, rest) => more && reader.rest == rest && State() == Given(old(State()), from, f)
    {
      var next := reader.ReadLine();
      if next == None {
        return false;
      }
      var (verb, tail) := Cut(next.value);
      var args := if tail.Some? then tail.value else [];
      if verb == "FEED" {
        more := HandleFeed(args, reader, from);
      } else {
        if verb == "RREG" {
          HandleRreg(args, from);
        }
        more := true;
      }
    }

    /** Read and apply a peer's frames until its stream ends. */
    method ReadLoop(reader: PeerReader, from: string)
      requires registry.Valid()
      modifies this, reader, registry`types, registry`accepted, registry`fanned, registry.seen, registry.handles.Values
      ensures registry.Valid()
      ensures State() == HandleAll(old(State()), from, FramesOf(old(reader.rest), maxMessageBytes))
    {
      ghost var goal := HandleAll(State(), from, FramesOf(reader.rest, maxMessageBytes));
      var more := true;
      while more
        invariant registry.Valid() && registry.handles == old(registry.handles)
        invariant goal == if more then HandleAll(State(), from, FramesOf(reader.rest, maxMessageBytes)) else State()
        decreases more, |reader.rest|
      {
        ghost var before, stream := State(), reader.rest;
        ReadTurnShrinks(stream, maxMessageBytes);
        more := ReadFrame(reader, from);
        if more {
          HandleListed(before, from, ReadTurn(stream, maxMessageBytes).frame, FramesOf(reader.rest, maxMessageBytes));
        }
      }
    }

    /** `dial_once`, first half: install the send side for a peer that just came up. */
    method InstallPeer(peer: string)
      modifies this
      ensures peers == old(peers)[peer := []]
    {
      peers := peers[peer := []];
    }

    /** `dial_once`, second half: push the registration table, record by record. */
    method PushRecords(peer: string, records: seq<Frame>)
      requires peer in peers
      modifies this
      ensures peers == old(peers)[peer := SendEach(old(peers)[peer], records)]
    {
      for i := 0 to |records|
        invariant peers == old(peers)[peer := SendEach(old(peers)[peer], records[..i])]
      {
        assert records[..i + 1][..i] == records[..i];
        peers := peers[peer := SendOne(peers[peer], records[i])];
      }
      assert records[..|records|] == records;
    }

    /** `all_registrations` as frames: every record once, in whatever order the table yields them. */
    method AllRegistrations() returns (records: seq<Frame>)
      ensures IsSnapshot(records, registry.types)
    {
      records := [];
      var todo := registry.types.Keys;
      assert registry.types - todo == map[];
      while todo != {}
        invariant todo <= registry.types.Keys && IsSnapshot(records, registry.types - todo)
        decreases todo
      {
        var t :| t in todo;
        SnapshotSnoc(records, registry.types, todo, t);
        records := records + [Rreg(t, registry.types[t])];
        todo := todo - {t};
      }
      assert registry.types - todo == registry.types;
    }

    /** `dial_once` up to its loops: the send side first, then the whole table, as far as it fits. */
    method LinkUp(peer: string) returns (ghost records: seq<Frame>)
      modifies this
      ensures IsSnapshot(records, registry.types) && peers == old(peers)[peer := SendEach([], records)]
      ensures |registry.types| <= 4096 <==> peers[peer] == records
    {
      InstallPeer(peer);
      var all := AllRegistrations();
      records := all;
      PushRecords(peer, all);
      SnapshotFitsIff([], records);
      assert [] + records == records;
    }

    /** The end of `dial_once`: whatever is still queued for the peer is gone with its queue. */
    method RemovePeer(peer: string)
      modifies this
      ensures peers == old(peers) - {peer}
    {
      peers := peers - {peer};
    }

    /** Drain a peer's queue to its socket. */
    method WriteLoop(peer: string) returns (bytes: string)
      requires peer in peers
      modifies this
      ensures bytes == SerializeAll(old(peers)[peer])
      ensures peers == old(peers)[peer := []]
    {
      hide Serialize, SerializeAll;
      bytes := [];
      assert bytes + SerializeAll(peers[peer]) == SerializeAll(peers[peer]);
      SerializeNothing();
      while peers[peer] != []
        invariant peer in peers
        invariant peers == old(peers)[peer := peers[peer]]
        invariant bytes + SerializeAll(peers[peer]) == SerializeAll(old(peers)[peer])
        decreases |peers[peer]|
      {
        var queue := peers[peer];
        SerializeNext(bytes, queue);
        bytes := bytes + Serialize(queue[0]);
        peers := peers[peer := queue[1..]];
      }
    }
  }

  // --- the engine performs steps of the cluster --------------------------------------------------------

  /** `h` is daemon `d` of the cluster state `s`, with the queues of its links. */
  ghost predicate IsHub(s: State, d: string, h: Hub)
  {
    && d in s.nodes && h.reg == s.nodes[d].reg
    && (forall id :: id in h.peers <==> Edge(d, id) in s.links)
    && (forall id :: id in h.peers ==> h.peers[id] == s.links[Edge(d, id)].queue)
  }

  /** Steps that can be taken one after the other. */
  ghost predicate CanTake(s: State, steps: seq<Step>)
    decreases |steps|
  {
    steps == [] || (Enabled(s, steps[0]) && CanTake(Next(s, steps[0]), steps[1..]))
  }

  ghost function After(s: State, steps: seq<Step>): State
    requires CanTake(s, steps)
    decreases |steps|
  {
    if steps == [] then s else After(Next(s, steps[0]), steps[1..])
  }

  lemma OneThenMore(s: State, step: Step, more: seq<Step>)
    requires Enabled(s, step) && CanTake(Next(s, step), more)
    ensures CanTake(s, [step] + more) && After(s, [step] + more) == After(Next(s, step), more)
  {
    assert ([step] + more)[1..] == more;
  }

  function Times(step: Step, n: nat): seq<Step>
  {
    if n == 0 then [] else [step] + Times(step, n - 1)
  }

  lemma {:induction false} SendEachCons(queue: seq<Frame>, f: Frame, fs: seq<Frame>)
    ensures SendEach(queue, [f] + fs) == SendEach(SendOne(queue, f), fs)
    decreases |fs|
  {
    if fs == [] {
      assert [f] + fs == [f] && [f][..0] == [];
    } else {
      assert ([f] + fs)[..|fs|] == [f] + fs[..|fs| - 1];
      SendEachCons(queue, f, fs[..|fs| - 1]);
    }
  }

  /** Daemons and jobs are the same, and so are all links but `e`. */
  ghost predicate DiffersAt(s: State, s': State, e: Edge)
  {
    && s'.nodes == s.nodes && s'.jobs == s.jobs
    && s'.links.Keys + {e} == s.links.Keys + {e}
    && forall x :: x in s.links && x != e ==> s'.links[x] == s.links[x]
  }

  lemma HubAfter(s: State, s': State, e: Edge, d: string, h: Hub)
    requires IsHub(s, d, h) && DiffersAt(s, s', e)
    ensures d != e.src ==> IsHub(s', d, h)
    ensures d == e.src && e in s'.links ==> IsHub(s', d, h.(peers := h.peers[e.dst := s'.links[e].queue]))
    ensures d == e.src && e !in s'.links ==> IsHub(s', d, h.(peers := h.peers - {e.dst}))
  {
  }

  lemma DiffersTwice(s: State, mid: State, s': State, e: Edge)
    requires DiffersAt(s, mid, e) && DiffersAt(mid, s', e) && e in s.links && e in mid.links && e in s'.links
    ensures DiffersAt(s, s', e)
  {
  }

  lemma PushesOne(s: State, e: Edge)
    requires Enabled(s, Push(e))
    ensures var s' := Next(s, Push(e));
            && DiffersAt(s, s', e) && e in s'.links
            && var l, l' := s.links[e], s'.links[e];
               && l'.read == l.read && l'.snap == l.snap[1..]
               && l'.queue == SendOne(l.queue, l.snap[0]) && l'.wire == l.wire
  {
  }

  lemma {:induction false} PushesSendEach(s: State, e: Edge)
    requires e in s.links && s.links[e].read
    ensures var steps := Times(Push(e), |s.links[e].snap|);
            && CanTake(s, steps) && DiffersAt(s, After(s, steps), e) && e in After(s, steps).links
            && var l, l' := s.links[e], After(s, steps).links[e];
               l'.read && l'.snap == [] && l'.queue == SendEach(l.queue, l.snap) && l'.wire == l.wire
    decreases |s.links[e].snap|
  {
    var l := s.links[e];
    if l.snap == [] {
    } else {
      assert Enabled(s, Push(e));
      var mid := Next(s, Push(e));
      hide Enabled, Next, DiffersAt, SendEach, SendOne;
      PushesOne(s, e);
      PushesSendEach(mid, e);
      var more := Times(Push(e), |l.snap| - 1);
      OneThenMore(s, Push(e), more);
      DiffersTwice(s, mid, After(mid, more), e);
      SendEachCons(l.queue, l.snap[0], l.snap[1..]);
      assert l.snap == [l.snap[0]] + l.snap[1..];
    }
  }

  lemma SnapshotTaken(s: State, e: Edge, records: seq<Frame>)
    requires Enabled(s, Install(e)) && IsSnapshot(records, s.nodes[e.src].reg.types)
    ensures Enabled(Next(s, Install(e)), Snapshot(e, records))
    ensures var s' := Next(Next(s, Install(e)), Snapshot(e, records));
            && DiffersAt(s, s', e) && e in s'.links
            && s'.links[e].read && s'.links[e].snap == records && s'.links[e].queue == []
  {
    hide IsSnapshot;
  }

  /** `LinkUp` in the cluster: with the link's installation, its snapshot and the pushes of all records, the
      sender's peers become what the engine's method promises, and no other daemon sees a difference. */
  lemma LinkUpInCluster(s: State, e: Edge, records: seq<Frame>, d: string, h: Hub)
    requires IsHub(s, d, h) && Enabled(s, Install(e)) && IsSnapshot(records, s.nodes[e.src].reg.types)
    ensures var steps := [Install(e), Snapshot(e, records)] + Times(Push(e), |records|);
            && CanTake(s, steps)
            && IsHub(After(s, steps), d, if d == e.src then h.(peers := h.peers[e.dst := SendEach([], records)]) else h)
  {
    SnapshotTaken(s, e, records);
    hide SendEach, Times, Enabled, Next, IsSnapshot, IsHub;
    var s1 := Next(s, Install(e));
    var s2 := Next(s1, Snapshot(e, records));
    var pushes := Times(Push(e), |records|);
    PushesSendEach(s2, e);
    OneThenMore(s1, Snapshot(e, records), pushes);
    OneThenMore(s, Install(e), [Snapshot(e, records)] + pushes);
    assert [Install(e)] + ([Snapshot(e, records)] + pushes) == [Install(e), Snapshot(e, records)] + pushes;
    HubAfter(s, After(s2, pushes), e, d, h);
  }

  lemma {:induction false} WritesEmpty(s: State, e: Edge)
    requires e in s.links && s.links[e].read && s.links[e].snap == []
    ensures var steps := Times(Write(e), |s.links[e].queue|);
            && CanTake(s, steps) && DiffersAt(s, After(s, steps), e) && e in After(s, steps).links
            && var l, l' := s.links[e], After(s, steps).links[e];
               l'.queue == [] && l'.wire == l.wire + l.queue
    decreases |s.links[e].queue|
  {
    var l := s.links[e];
    if l.queue == [] {
      assert l.wire + l.queue == l.wire;
    } else {
      var mid := Next(s, Write(e));
      WritesEmpty(mid, e);
      OneThenMore(s, Write(e), Times(Write(e), |l.queue| - 1));
      assert l.wire + [l.queue[0]] + l.queue[1..] == l.wire + l.queue;
    }
  }

  lemma {:induction false} SerializeConcat(a: seq<Frame>, b: seq<Frame>)
    ensures SerializeAll(a + b) == SerializeAll(a) + SerializeAll(b)
  {
    if a == [] {
      assert [] + b == b && SerializeAll([]) + SerializeAll(b) == SerializeAll(b);
    } else {
      assert (a + b)[1..] == a[1..] + b;
      SerializeConcat(a[1..], b);
    }
  }

  /** `WriteLoop` in the cluster: as many writes as the queue has frames leave the peer's queue empty, and
      the octets on the wire grow by those the engine's method returns. */
  lemma WriteLoopInCluster(s: State, e: Edge, d: string, h: Hub)
    requires IsHub(s, d, h) && e in s.links && s.links[e].read && s.links[e].snap == []
    ensures var steps := Times(Write(e), |s.links[e].queue|);
            && CanTake(s, steps) && e in After(s, steps).links
            && IsHub(After(s, steps), d, if d == e.src then h.(peers := h.peers[e.dst := []]) else h)
            && SerializeAll(After(s, steps).links[e].wire)
               == SerializeAll(s.links[e].wire) + SerializeAll(s.links[e].queue)
  {
    hide SerializeAll, Times, CanTake, After;
    WritesEmpty(s, e);
    HubAfter(s, After(s, Times(Write(e), |s.links[e].queue|)), e, d, h);
    SerializeConcat(s.links[e].wire, s.links[e].queue);
  }

  /** `RemovePeer` in the cluster: the sender loses the peer with its queue, and what was written stays on the
      dead socket. */
  lemma RemovePeerInCluster(s: State, e: Edge, d: string, h: Hub)
    requires IsHub(s, d, h) && Enabled(s, Down(e))
    ensures IsHub(Next(s, Down(e)), d, if d == e.src then h.(peers := h.peers - {e.dst}) else h)
    ensures Next(s, Down(e)).stale == s.stale + Parcels(e, s.links[e].wire)
  {
    HubAfter(s, Next(s, Down(e)), e, d, h);
  }

  lemma SendIsSendAll(s: State, i: nat, h: Hub)
    requires i < |s.jobs| && IsHub(s, s.jobs[i].at, h)
    ensures IsHub(SendAt(s, i), s.jobs[i].at, h.(peers := SendAll(h.peers, s.jobs[i].frame, s.jobs[i].exclude)))
  {
    var j, s' := s.jobs[i], SendAt(s, i);
    var peers := SendAll(h.peers, j.frame, j.exclude);
    forall id | id in peers ensures peers[id] == s'.links[Edge(j.at, id)].queue {
      assert h.peers[id] == s.links[Edge(j.at, id)].queue;
    }
  }

  /** Finish the last job: fan out if that is still to do, then broadcast. */
  ghost function FinishLast(s: State): State
    requires s.jobs != [] && s.jobs[|s.jobs| - 1].at in s.nodes
    requires !s.jobs[|s.jobs| - 1].fanned ==> s.jobs[|s.jobs| - 1].frame.Feed?
  {
    var i := |s.jobs| - 1;
    SendAt(if s.jobs[i].fanned then s else FanAt(s, i), i)
  }

  /** Handling a frame without interruption is delivery, fan-out and broadcast in the cluster. */
  lemma HandleRefines(s: State, from: string, to: string, f: Frame, h: Hub)
    requires IsHub(s, to, h)
    ensures var s' := Receive(s, from, to, f);
            if f.Feed? && BodySize(f.msg.body) > s.nodes[to].maxBytes then s' == s
            else if s'.jobs == s.jobs then IsHub(s', to, Handle(h, from, f))
            else
              && s'.jobs != [] && s'.jobs[|s'.jobs| - 1].at == to && to in s'.nodes
              && (!s'.jobs[|s'.jobs| - 1].fanned ==> s'.jobs[|s'.jobs| - 1].frame.Feed?)
              && IsHub(FinishLast(s'), to, Handle(h, from, f))
  {
    var s' := Receive(s, from, to, f);
    if s'.jobs != s.jobs {
      var i := |s'.jobs| - 1;
      var mid := if s'.jobs[i].fanned then s' else FanAt(s', i);
      assert s'.jobs[i] == Job(to, f, Some(from), f.Rreg?);
      SendIsSendAll(mid, i, Hub(mid.nodes[to].reg, h.peers));
    }
  }
}
