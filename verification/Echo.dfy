/** A daemon never returns a message to the peer it came from, and each fan-out reaches exactly the
    connections subscribed at that moment. */
module Echo {
  import opened Text
  import opened Messages
  import opened SeenSets
  import opened Registries
  import opened Cluster
  import opened Invariants
  import opened Coverage
  import opened Convergence
  import opened Delivery
  import opened Flooding
  import Ordering
  import Safety

  // --- source exclusion ------------------------------------------------------------------------------

  /** Daemon `d` has accepted `m`, and nothing it queued, wrote or still has to send takes `m` to `p`. */
  ghost predicate NotSentBack(s: State, d: string, p: string, m: Message)
  {
    && d in s.nodes && m in s.nodes[d].reg.accepted
    && (Edge(d, p) in s.links ==> !Holds(s.links[Edge(d, p)], Feed(m)))
    && (forall j :: j in s.jobs && j.at == d && j.frame == Feed(m) ==> j.exclude == Some(p))
    && (forall q :: q in s.stale && q.src == d && q.dst == p ==> q.frame != Feed(m))
  }

  /** The step by which `d` takes `m` as news from `p`, over a live or a dead link. */
  ghost predicate ArrivesFrom(s: State, step: Step, d: string, p: string, m: Message)
    requires Enabled(s, step)
  {
    && d in s.nodes && m !in s.nodes[d].reg.accepted
    && d in Next(s, step).nodes && m in Next(s, step).nodes[d].reg.accepted
    && ((step.Deliver? && step.e == Edge(p, d) && s.links[step.e].wire[0] == Feed(m))
        || (step.DeliverStale? && s.stale[step.i] == Parcel(p, d, Feed(m))))
  }

  /** What a daemon has not accepted it cannot have sent to anyone. */
  ghost predicate Unsent(s: State, d: string, m: Message)
  {
    && (forall e :: e in s.links && e.src == d ==> !Holds(s.links[e], Feed(m)))
    && (forall j :: j in s.jobs && j.at == d ==> j.frame != Feed(m))
    && (forall q :: q in s.stale && q.src == d ==> q.frame != Feed(m))
  }

  lemma UnknownIsUnsent(s: State, d: string, m: Message)
    requires InFlightOk(s) && d in s.nodes && m !in s.nodes[d].reg.accepted
    ensures Unsent(s, d, m)
  {
    forall e | e in s.links && e.src == d ensures !Holds(s.links[e], Feed(m)) {
      assert LinkOk(s, e) && !FrameOk(s, e.src, Feed(m));
    }
    forall j | j in s.jobs && j.at == d ensures j.frame != Feed(m) {
      assert JobOk(s, j);
    }
    forall q | q in s.stale && q.src == d ensures q.frame != Feed(m) {
      assert FrameOk(s, q.src, q.frame);
    }
  }

  lemma ReceivedFrom(s: State, d: string, p: string, m: Message)
    requires Unsent(s, d, m) && d in s.nodes && m !in s.nodes[d].reg.accepted
    requires m in Receive(s, p, d, Feed(m)).nodes[d].reg.accepted
    ensures NotSentBack(Receive(s, p, d, Feed(m)), d, p, m)
  {
  }

  lemma ArrivalStarts(s: State, step: Step, d: string, p: string, m: Message)
    requires InFlightOk(s) && Enabled(s, step) && ArrivesFrom(s, step, d, p, m)
    ensures NotSentBack(Next(s, step), d, p, m)
  {
    UnknownIsUnsent(s, d, m);
    if step.Deliver? {
      UnwireUnsent(s, step.e, d, m);
      ReceivedFrom(Unwire(s, step.e), d, p, m);
    } else {
      assert forall q :: q in Unstale(s, step.i).stale ==> q in s.stale;
      ReceivedFrom(Unstale(s, step.i), d, p, m);
    }
  }

  lemma UnwireUnsent(s: State, e: Edge, d: string, m: Message)
    requires Unsent(s, d, m) && e in s.links && s.links[e].wire != []
    ensures Unsent(Unwire(s, e), d, m)
  {
    assert forall f :: Holds(Unwire(s, e).links[e], f) ==> Holds(s.links[e], f);
  }

  // --- every step keeps it ------------------------------------------------------------------------------

  lemma ReceiveKeepsBack(s: State, from: string, to: string, f: Frame, d: string, p: string, m: Message)
    requires NotSentBack(s, d, p, m) && MessagesOk(s) && Unevicted(s, d) && to in s.nodes
    ensures NotSentBack(Receive(s, from, to, f), d, p, m)
  {
    if f == Feed(m) && to == d {
      KnownIsDuplicate(s, d, m);
    }
  }

  lemma DeliverKeepsBack(s: State, e: Edge, d: string, p: string, m: Message)
    requires NotSentBack(s, d, p, m) && MessagesOk(s) && Unevicted(s, d) && Enabled(s, Deliver(e))
    ensures NotSentBack(Next(s, Deliver(e)), d, p, m)
  {
    var mid := Unwire(s, e);
    GrowsByNone(s, mid);
    MessagesSame(s, mid);
    assert Edge(d, p) == e ==> forall f :: Holds(mid.links[e], f) ==> Holds(s.links[e], f);
    ReceiveKeepsBack(mid, e.src, e.dst, s.links[e].wire[0], d, p, m);
  }

  lemma StaleKeepsBack(s: State, i: nat, d: string, p: string, m: Message)
    requires NotSentBack(s, d, p, m) && i < |s.stale|
    ensures NotSentBack(Unstale(s, i), d, p, m)
  {
    assert forall q :: q in Unstale(s, i).stale ==> q in s.stale;
  }

  lemma DeliverStaleKeepsBack(s: State, i: nat, d: string, p: string, m: Message)
    requires NotSentBack(s, d, p, m) && MessagesOk(s) && Unevicted(s, d) && Enabled(s, DeliverStale(i))
    ensures NotSentBack(Next(s, DeliverStale(i)), d, p, m)
  {
    var mid, q := Unstale(s, i), s.stale[i];
    GrowsByNone(s, mid);
    MessagesSame(s, mid);
    StaleKeepsBack(s, i, d, p, m);
    ReceiveKeepsBack(mid, q.src, q.dst, q.frame, d, p, m);
  }

  lemma PublishKeepsBack(s: State, at: string, t: string, key: string, body: seq<string>,
                         d: string, p: string, m: Message)
    requires NotSentBack(s, d, p, m) && MessagesOk(s) && at in s.nodes
    ensures NotSentBack(PublishAt(s, at, t, key, body), d, p, m)
  {
    var r := s.nodes[at].reg;
    assert DaemonOk(s, d) && DaemonOk(s, at) && m in s.published;
    NextIdIsFresh(s, at, m);
    if Authorize(r.types, t, key) == Authorized {
      PublishEffect(s, at, t, key, body);
    }
  }

  lemma SendKeepsBack(s: State, i: nat, d: string, p: string, m: Message)
    requires NotSentBack(s, d, p, m) && i < |s.jobs|
    ensures NotSentBack(SendAt(s, i), d, p, m)
  {
    var j := s.jobs[i];
    assert j in s.jobs;
    assert forall k :: k in RemoveAt(s.jobs, i) ==> k in s.jobs;
    if Edge(d, p) in s.links {
      EnqueueHolds(s.links[Edge(d, p)], j.frame, Feed(m));
    }
  }

  lemma MoveKeepsBack(s: State, step: Step, d: string, p: string, m: Message)
    requires NotSentBack(s, d, p, m) && Enabled(s, step)
    requires step.Snapshot? || step.Push? || step.Write? || step.Install?
    ensures NotSentBack(Next(s, step), d, p, m)
  {
    if step.Push? {
      PushHolds(s.links[step.e], Feed(m));
    } else if step.Write? {
      TransmitHolds(s.links[step.e], Feed(m));
    }
  }

  lemma DownKeepsBack(s: State, e: Edge, d: string, p: string, m: Message)
    requires NotSentBack(s, d, p, m) && e in s.links
    ensures NotSentBack(Next(s, Down(e)), d, p, m)
  {
    var wire := s.links[e].wire;
    forall q | q in Parcels(e, wire) && q.src == d && q.dst == p ensures q.frame != Feed(m) {
      var k :| 0 <= k < |wire| && q == Parcel(e.src, e.dst, wire[k]);
      assert wire[k] in wire && Holds(s.links[e], wire[k]);
    }
  }

  lemma LocalKeepsBack(s: State, step: Step, d: string, p: string, m: Message)
    requires NotSentBack(s, d, p, m) && Enabled(s, step) && (step.Register? || step.Client? || step.FanJob?)
    ensures NotSentBack(Next(s, step), d, p, m)
  {
    if step.FanJob? {
      assert forall j :: j in Next(s, step).jobs ==> j in s.jobs || j == s.jobs[step.i].(fanned := true);
      assert s.jobs[step.i] in s.jobs;
    }
  }

  lemma StepKeepsBack(s: State, step: Step, d: string, p: string, m: Message)
    requires NotSentBack(s, d, p, m) && MessagesOk(s) && Unevicted(s, d) && Enabled(s, step)
    ensures NotSentBack(Next(s, step), d, p, m)
  {
    hide MessagesOk;
    if step.Publish? {
      PublishKeepsBack(s, step.d, step.t, step.key, step.body, d, p, m);
    } else if step.SendJob? {
      SendKeepsBack(s, step.i, d, p, m);
    } else if step.Deliver? {
      DeliverKeepsBack(s, step.e, d, p, m);
    } else if step.DeliverStale? {
      DeliverStaleKeepsBack(s, step.i, d, p, m);
    } else if step.LoseStale? {
      StaleKeepsBack(s, step.i, d, p, m);
    } else if step.Down? {
      DownKeepsBack(s, step.e, d, p, m);
    } else if step.Register? || step.Client? || step.FanJob? {
      LocalKeepsBack(s, step, d, p, m);
    } else {
      MoveKeepsBack(s, step, d, p, m);
    }
  }

  /** In every run: from the step by which a daemon takes a message from a peer on, and as long as its own
      window has evicted nothing, it never queues, sends or has pending that message for that peer. */
  lemma {:induction false} NeverReturned(run: seq<State>, steps: seq<Step>, j: nat, i: nat,
                                         d: string, p: string, m: Message)
    requires IsRun(run, steps) && ProperStart(run[0]) && j < i < |run|
    requires d in run[i].nodes && Unevicted(run[i], d)
    requires Enabled(run[j], steps[j]) && ArrivesFrom(run[j], steps[j], d, p, m)
    ensures NotSentBack(run[i], d, p, m)
    decreases i
  {
    hide Next, ProperStart, Covered, ClaimsOk, InFlightOk, MessagesOk;
    assert Enabled(run[i - 1], steps[i - 1]) && run[i - 1 + 1] == Next(run[i - 1], steps[i - 1]);
    Always(run, steps, i - 1);
    if i == j + 1 {
      ArrivalStarts(run[j], steps[j], d, p, m);
    } else {
      StepGrows(run[i - 1], steps[i - 1]);
      Ordering.UnevictedBefore(run[i - 1], run[i], d);
      NeverReturned(run, steps, j, i - 1, d, p, m);
      StepKeepsBack(run[i - 1], steps[i - 1], d, p, m);
    }
  }

  // --- who a fan-out reaches --------------------------------------------------------------------------------

  /** Step `j` made the fan-out `e` at daemon `d`, to exactly the connections whose own subscriptions
      held the type at that moment. */
  ghost predicate FannedAt(run: seq<State>, j: nat, d: string, k: nat, e: FanEvent)
  {
    && j + 1 < |run| && d in run[j].nodes && d in run[j + 1].nodes
    && |run[j].nodes[d].reg.fanned| == k && run[j + 1].nodes[d].reg.fanned == run[j].nodes[d].reg.fanned + [e]
    && forall c :: c in e.listeners <==> c in run[j].nodes[d].mySubs && e.msg.typeName in run[j].nodes[d].mySubs[c]
  }

  /** A daemon's fan-outs: none, or one to the current listeners. */
  ghost predicate FansOnce(s: State, s': State, d: string)
    requires d in s.nodes && d in s'.nodes
  {
    var r, r' := s.nodes[d].reg, s'.nodes[d].reg;
    || r'.fanned == r.fanned
    || (r'.fanned != [] && r'.fanned == r.fanned + [r'.fanned[|r'.fanned| - 1]]
        && var e := r'.fanned[|r'.fanned| - 1]; e.listeners == Listeners(r.subs, e.msg.typeName))
  }

  lemma StepFansOnce(s: State, step: Step, d: string)
    requires Enabled(s, step) && d in s.nodes
    ensures d in Next(s, step).nodes && FansOnce(s, Next(s, step), d)
  {
    if step.FanJob? || step.Publish? {
      ThoseFanOnce(s, step, d);
    } else {
      Safety.QuietFanned(s, step);
    }
  }

  lemma ThoseFanOnce(s: State, step: Step, d: string)
    requires Enabled(s, step) && d in s.nodes && (step.FanJob? || step.Publish?)
    ensures d in Next(s, step).nodes && FansOnce(s, Next(s, step), d)
  {
    hide Insert, Print, OfferTo;
  }

  lemma {:induction false} FannedToSubscribers(run: seq<State>, steps: seq<Step>, i: nat, d: string, k: nat)
    returns (j: nat)
    requires IsRun(run, steps) && i < |run| && d in run[i].nodes && k < |run[i].nodes[d].reg.fanned|
    ensures j < i && FannedAt(run, j, d, k, run[i].nodes[d].reg.fanned[k])
    decreases i
  {
    hide Next, Enabled, ClientsOk;
    assert Init(run[0]);
    assert Enabled(run[i - 1], steps[i - 1]) && run[i - 1 + 1] == Next(run[i - 1], steps[i - 1]);
    SameDaemons(run, steps, i);
    SameDaemons(run, steps, i - 1);
    StepFansOnce(run[i - 1], steps[i - 1], d);
    var before := run[i - 1].nodes[d];
    if k < |before.reg.fanned| {
      j := FannedToSubscribers(run, steps, i - 1, d, k);
      assert run[i].nodes[d].reg.fanned[k] == before.reg.fanned[k];
    } else {
      j := i - 1;
      ClientsAlways(run, steps, j);
      ListenersAre(before, run[i].nodes[d].reg.fanned[k]);
    }
  }

  lemma ListenersAre(n: Daemon, e: FanEvent)
    requires ClientsOk(n) && e.listeners == Listeners(n.reg.subs, e.msg.typeName)
    ensures forall c :: c in e.listeners <==> c in n.mySubs && e.msg.typeName in n.mySubs[c]
  {
    assert IndexAgrees(n.reg.subs, n.mySubs);
  }
}
