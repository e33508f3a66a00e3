/** The cluster as a state machine: every daemon, every link, every frame in flight.
    One step is one critical section of the code; whatever a task still has to do after
    releasing a lock is a `Job` of the state. */
module Cluster {
  import opened Text
  import opened Messages
  import opened Ownership
  import opened Outbound
  import opened Registries

  const PEER_QUEUE_DEPTH: nat := 4096

  /** What travels between daemons. */
  datatype Frame = Feed(msg: Message) | Rreg(typeName: string, reg: TypeReg)

  datatype Edge = Edge(src: string, dst: string)

  /** A dialed link: records of the snapshot not yet pushed, the bounded frame queue, and what
      is written to the socket but not yet read at the far end.  `read` tells whether the
      snapshot has been taken; `refused` is the history of frames the full queue turned away since
      the link came up, and `since` how many messages the sender had accepted at that moment. */
  datatype Link = Link(read: bool, snap: seq<Frame>, queue: seq<Frame>, wire: seq<Frame>,
                       refused: set<Frame>, since: nat)

  /** Work a task of daemon `at` still has to do: fan `frame` out to local subscribers unless
      that is `fanned` already, then broadcast it to all dialed peers but `exclude`. */
  datatype Job = Job(at: string, frame: Frame, exclude: Option<string>, fanned: bool)

  /** A frame on the socket of a link that is down for the sender. */
  datatype Parcel = Parcel(src: string, dst: string, frame: Frame)

  /** A daemon: its registry, its body limit and each live connection's own subscriptions. */
  datatype Daemon = Daemon(reg: RegState, maxBytes: nat, mySubs: map<nat, set<string>>)

  /** `registered` and `published` are the history of successful first REGISTERs and PUBLISHes. */
  datatype State = State(
    nodes: map<string, Daemon>,
    links: map<Edge, Link>,
    jobs: seq<Job>,
    stale: seq<Parcel>,
    registered: set<Claim>,
    published: set<Message>)

  // --- links -----------------------------------------------------------------------

  ghost predicate Holds(l: Link, f: Frame)
  {
    f in l.snap || f in l.queue || f in l.wire
  }

  function NewLink(since: nat): Link
  {
    Link(false, [], [], [], {}, since)
  }

  /** `try_send` on the link's queue. */
  function Enqueue(l: Link, f: Frame): Link
  {
    if |l.queue| < PEER_QUEUE_DEPTH then l.(queue := l.queue + [f]) else l.(refused := l.refused + {f})
  }

  function Transmit(l: Link): Link
    requires l.queue != []
  {
    l.(queue := l.queue[1..], wire := l.wire + [l.queue[0]])
  }

  function PushSnapshot(l: Link): Link
    requires l.snap != []
  {
    Enqueue(l.(snap := l.snap[1..]), l.snap[0])
  }

  function Broadcast(links: map<Edge, Link>, at: string, f: Frame, exclude: Option<string>): map<Edge, Link>
  {
    map e | e in links :: if e.src == at && Some(e.dst) != exclude then Enqueue(links[e], f) else links[e]
  }

  /** `snap` lists the table once, in some order. */
  ghost predicate IsSnapshot(snap: seq<Frame>, types: Table)
  {
    && |snap| == |types|
    && (forall f :: f in snap <==> f.Rreg? && f.typeName in types && types[f.typeName] == f.reg)
  }

  /** What becomes of the frames written to a socket that goes down.  Each is later read whole or not at
      all; the octets of a stream that ends early do that exactly when the cut is clean, which is a
      premise of this machine (`Torn.CutStreamIff`, `Safety.DeadWireIff`). */
  function Parcels(e: Edge, wire: seq<Frame>): seq<Parcel>
  {
    seq(|wire|, i requires 0 <= i < |wire| => Parcel(e.src, e.dst, wire[i]))
  }

  function RemoveAt<T>(xs: seq<T>, i: nat): seq<T>
    requires i < |xs|
  {
    xs[..i] + xs[i + 1..]
  }

  // --- receiving ---------------------------------------------------------------------

  /** The reader task of `to` handles a frame from `from`, up to releasing the registry.  The job it leaves
      need not be done before its next frame, which allows more than the reader does. */
  function Receive(s: State, from: string, to: string, f: Frame): State
    requires to in s.nodes
  {
    var d := s.nodes[to];
    match f
    case Rreg(t, reg) =>
      var (effective, types) := ApplyRemote(d.reg.types, t, reg);
      s.(nodes := s.nodes[to := d.(reg := d.reg.(types := types))],
         jobs := if effective.Some? then s.jobs + [Job(to, Rreg(t, effective.value), Some(from), true)] else s.jobs)
    case Feed(m) =>
      if BodySize(m.body) > d.maxBytes then s
      else
        var (isNew, reg) := Accept(d.reg, m);
        s.(nodes := s.nodes[to := d.(reg := reg)],
           jobs := if isNew then s.jobs + [Job(to, f, Some(from), false)] else s.jobs)
  }

  // --- what a daemon's own clients do ---------------------------------------------------

  datatype ClientOp =
    | Open(depth: nat)
    | Subscribing(t: string)
    | Unsubscribing(t: string)
    | Writing
    | Noticing(notices: seq<Notice>)
    | Leaving

  ghost predicate CanDo(d: Daemon, c: nat, op: ClientOp)
  {
    match op
    case Open(_) => c !in d.reg.conns
    case Subscribing(_) => c in d.mySubs
    case Unsubscribing(_) => c in d.mySubs
    case Writing => c in d.mySubs && c in d.reg.conns && d.reg.conns[c].items != []
    case Noticing(notices) => c in d.mySubs && c in d.reg.conns && Drains(notices, d.reg.conns[c].drops)
    case Leaving => c in d.mySubs && c in d.reg.conns
  }

  ghost function Do(d: Daemon, c: nat, op: ClientOp): Daemon
    requires CanDo(d, c, op)
  {
    var r := d.reg;
    match op
    case Open(depth) => d.(reg := r.(conns := r.conns[c := NewQueue(depth)]), mySubs := d.mySubs[c := {}])
    case Subscribing(t) =>
      d.(reg := r.(subs := Subscribe(r.subs, t, c)), mySubs := d.mySubs[c := d.mySubs[c] + {t}])
    case Unsubscribing(t) =>
      d.(reg := r.(subs := Unsubscribe(r.subs, t, c)), mySubs := d.mySubs[c := d.mySubs[c] - {t}])
    case Writing => d.(reg := r.(conns := r.conns[c := Take(r.conns[c])]))
    case Noticing(notices) => d.(reg := r.(conns := r.conns[c := Flush(r.conns[c], notices)]))
    case Leaving =>
      d.(reg := r.(subs := RemoveConn(r.subs, c, d.mySubs[c]), conns := r.conns[c := Close(r.conns[c])]),
         mySubs := d.mySubs - {c})
  }

  // --- steps -----------------------------------------------------------------------------

  datatype Step =
    | Register(d: string, t: string, key: string, now: nat)
    | Publish(d: string, t: string, key: string, body: seq<string>)
    | Client(d: string, c: nat, op: ClientOp)
    | FanJob(i: nat)
    | SendJob(i: nat)
    | Install(e: Edge)
    | Snapshot(e: Edge, snap: seq<Frame>)
    | Push(e: Edge)
    | Write(e: Edge)
    | Deliver(e: Edge)
    | Down(e: Edge)
    | DeliverStale(i: nat)
    | LoseStale(i: nat)

  ghost predicate Enabled(s: State, step: Step)
  {
    match step
    case Register(d, t, key, now) => d in s.nodes
    case Publish(d, t, key, body) => d in s.nodes
    case Client(d, c, op) => d in s.nodes && CanDo(s.nodes[d], c, op)
    case FanJob(i) => i < |s.jobs| && s.jobs[i].at in s.nodes && !s.jobs[i].fanned && s.jobs[i].frame.Feed?
    case SendJob(i) => i < |s.jobs| && s.jobs[i].fanned
    case Install(e) => e !in s.links && e.src in s.nodes && e.dst in s.nodes
    case Snapshot(e, snap) =>
      e in s.links && e.src in s.nodes && !s.links[e].read && IsSnapshot(snap, s.nodes[e.src].reg.types)
    case Push(e) => e in s.links && s.links[e].snap != []
    case Write(e) => e in s.links && s.links[e].read && s.links[e].snap == [] && s.links[e].queue != []
    case Deliver(e) => e in s.links && e.dst in s.nodes && s.links[e].wire != []
    case Down(e) => e in s.links
    case DeliverStale(i) => i < |s.stale| && s.stale[i].dst in s.nodes
    case LoseStale(i) => i < |s.stale|
  }

  ghost function Next(s: State, step: Step): State
    requires Enabled(s, step)
  {
    match step
    case Register(d, t, key, now) => RegisterAt(s, d, t, key, now)
    case Publish(d, t, key, body) => PublishAt(s, d, t, key, body)
    case Client(d, c, op) => s.(nodes := s.nodes[d := Do(s.nodes[d], c, op)])
    case FanJob(i) => FanAt(s, i)
    case SendJob(i) => SendAt(s, i)
    case Install(e) => s.(links := s.links[e := NewLink(|s.nodes[e.src].reg.accepted|)])
    case Snapshot(e, snap) => s.(links := s.links[e := s.links[e].(read := true, snap := snap)])
    case Push(e) => s.(links := s.links[e := PushSnapshot(s.links[e])])
    case Write(e) => s.(links := s.links[e := Transmit(s.links[e])])
    case Deliver(e) => Receive(Unwire(s, e), e.src, e.dst, s.links[e].wire[0])
    case Down(e) => s.(links := s.links - {e}, stale := s.stale + Parcels(e, s.links[e].wire))
    case DeliverStale(i) => Receive(Unstale(s, i), s.stale[i].src, s.stale[i].dst, s.stale[i].frame)
    case LoseStale(i) => Unstale(s, i)
  }

  function RegisterAt(s: State, d: string, t: string, key: string, now: nat): State
    requires d in s.nodes
  {
    var n := s.nodes[d];
    var (result, types) := RegisterLocal(n.reg.types, n.reg.id, t, key, now);
    if result.Registered? && result.changed then
      s.(nodes := s.nodes[d := n.(reg := n.reg.(types := types))],
         jobs := s.jobs + [Job(d, Rreg(t, result.reg), None, true)],
         registered := s.registered + {Claim(t, result.reg)})
    else s
  }

  function PublishAt(s: State, d: string, t: string, key: string, body: seq<string>): State
    requires d in s.nodes
  {
    var n := s.nodes[d];
    if Authorize(n.reg.types, t, key) == Authorized then
      var m := NextMessage(n.reg, t, body);
      s.(nodes := s.nodes[d := n.(reg := PublishStep(n.reg, t, key, body))],
         jobs := s.jobs + [Job(d, Feed(m), None, true)],
         published := s.published + {m})
    else s
  }

  function FanAt(s: State, i: nat): State
    requires i < |s.jobs| && s.jobs[i].at in s.nodes && s.jobs[i].frame.Feed?
  {
    var j := s.jobs[i];
    var n := s.nodes[j.at];
    s.(nodes := s.nodes[j.at := n.(reg := FanOut(n.reg, j.frame.msg))], jobs := s.jobs[i := j.(fanned := true)])
  }

  function SendAt(s: State, i: nat): State
    requires i < |s.jobs|
  {
    var j := s.jobs[i];
    s.(links := Broadcast(s.links, j.at, j.frame, j.exclude), jobs := RemoveAt(s.jobs, i))
  }

  /** The far end of `e` has read the oldest frame. */
  function Unwire(s: State, e: Edge): State
    requires e in s.links && s.links[e].wire != []
  {
    s.(links := s.links[e := s.links[e].(wire := s.links[e].wire[1..])])
  }

  function Unstale(s: State, i: nat): State
    requires i < |s.stale|
  {
    s.(stale := RemoveAt(s.stale, i))
  }

  /** Daemons that have just started, under their own distinct ids. */
  ghost predicate Init(s: State)
  {
    && s.links == map[] && s.jobs == [] && s.stale == [] && s.registered == {} && s.published == {}
    && (forall d :: d in s.nodes ==>
          s.nodes[d].reg == NewRegistry(d, s.nodes[d].reg.seen.cap) && s.nodes[d].mySubs == map[])
  }

  /** `run` starts at an initial state and each state follows by the corresponding step. */
  ghost predicate IsRun(run: seq<State>, steps: seq<Step>)
  {
    && |run| == |steps| + 1
    && Init(run[0])
    && forall i :: 0 <= i < |steps| ==> Enabled(run[i], steps[i]) && run[i + 1] == Next(run[i], steps[i])
  }
}
