/** What holds of every daemon's clients in every state of every run: the subscription index
    agrees with each connection, queues conserve messages, and each connection was offered
    exactly the messages fanned out while it was subscribed. */
module Delivery {
  import opened Messages
  import opened Outbound
  import opened Registries
  import opened Cluster

  /** The messages fanned out while connection `c` was subscribed to their type, in order. */
  function Heard(fanned: seq<FanEvent>, c: nat): seq<Message>
  {
    if fanned == [] then []
    else
      var last := fanned[|fanned| - 1];
      Heard(fanned[..|fanned| - 1], c) + if c in last.listeners then [last.msg] else []
  }

  ghost predicate QueueOk(r: RegState, c: nat)
    requires c in r.conns
  {
    Conserved(r.conns[c]) && r.conns[c].offered == Heard(r.fanned, c)
  }

  ghost predicate ClientsOk(d: Daemon)
  {
    && IndexAgrees(d.reg.subs, d.mySubs)
    && (forall c :: c in d.mySubs ==> c in d.reg.conns && d.reg.conns[c].open)
    && (forall c :: c in d.reg.conns ==> QueueOk(d.reg, c))
    && (forall e :: e in d.reg.fanned ==> e.listeners <= d.reg.conns.Keys)
  }

  lemma HeardSnoc(fanned: seq<FanEvent>, e: FanEvent, c: nat)
    ensures Heard(fanned + [e], c) == Heard(fanned, c) + if c in e.listeners then [e.msg] else []
  {
    assert (fanned + [e])[..|fanned|] == fanned;
  }

  lemma {:induction false} HeardNothing(fanned: seq<FanEvent>, conns: set<nat>, c: nat)
    requires forall e :: e in fanned ==> e.listeners <= conns
    requires c !in conns
    ensures Heard(fanned, c) == []
  {
    if fanned == [] {
    } else {
      HeardNothing(fanned[..|fanned| - 1], conns, c);
      assert fanned[|fanned| - 1] in fanned;
    }
  }

  lemma FanOutClients(d: Daemon, m: Message)
    requires ClientsOk(d)
    ensures ClientsOk(d.(reg := FanOut(d.reg, m)))
  {
    var r, r' := d.reg, FanOut(d.reg, m);
    var to := Listeners(r.subs, m.typeName);
    forall c | c in to ensures c in r.conns && r.conns[c].open {
      assert c in d.mySubs;
    }
    forall c | c in r'.conns ensures QueueOk(r', c) {
      assert QueueOk(r, c);
      HeardSnoc(r.fanned, FanEvent(m, to), c);
      if c in to {
        OfferConserves(r.conns[c], m);
      }
    }
  }

  /** Changes to the table, the numbering or the acceptance history do not concern clients. */
  lemma OtherClients(d: Daemon, d': Daemon)
    requires ClientsOk(d) && d'.mySubs == d.mySubs && d'.reg.subs == d.reg.subs
    requires d'.reg.conns == d.reg.conns && d'.reg.fanned == d.reg.fanned
    ensures ClientsOk(d')
  {
    forall c | c in d'.reg.conns ensures QueueOk(d'.reg, c) {
      assert QueueOk(d.reg, c);
    }
  }

  lemma QueueChange(d: Daemon, d': Daemon, c: nat)
    requires ClientsOk(d) && d'.mySubs == d.mySubs && d'.reg.subs == d.reg.subs && d'.reg.fanned == d.reg.fanned
    requires c in d.reg.conns && c in d'.reg.conns && d'.reg.conns == d.reg.conns[c := d'.reg.conns[c]]
    requires d'.reg.conns[c].offered == d.reg.conns[c].offered && d'.reg.conns[c].open == d.reg.conns[c].open
    requires Conserved(d'.reg.conns[c])
    ensures ClientsOk(d')
  {
    forall k | k in d'.reg.conns ensures QueueOk(d'.reg, k) {
      assert QueueOk(d.reg, k);
    }
  }

  lemma OpenClients(d: Daemon, c: nat, depth: nat)
    requires ClientsOk(d) && c !in d.reg.conns
    ensures ClientsOk(Do(d, c, Open(depth)))
  {
    var d' := Do(d, c, Open(depth));
    NewQueueConserved(depth);
    HeardNothing(d.reg.fanned, d.reg.conns.Keys, c);
    forall k | k in d'.reg.conns ensures QueueOk(d'.reg, k) {
      assert k != c ==> QueueOk(d.reg, k);
    }
    assert c !in d.mySubs;
    forall t, k ensures k in Listeners(d'.reg.subs, t) <==> k in d'.mySubs && t in d'.mySubs[k] {
      assert k in Listeners(d.reg.subs, t) <==> k in d.mySubs && t in d.mySubs[k];
    }
  }

  lemma LeaveClients(d: Daemon, c: nat)
    requires ClientsOk(d) && CanDo(d, c, Leaving)
    ensures ClientsOk(Do(d, c, Leaving))
    ensures forall t :: c !in Listeners(Do(d, c, Leaving).reg.subs, t)
  {
    var d' := Do(d, c, Leaving);
    RemoveConnAgrees(d.reg.subs, d.mySubs, c);
    forall k | k in d'.reg.conns ensures QueueOk(d'.reg, k) {
      assert QueueOk(d.reg, k);
      assert d'.reg.conns[k].items == d.reg.conns[k].items;
    }
  }

  lemma DoClients(d: Daemon, c: nat, op: ClientOp)
    requires ClientsOk(d) && CanDo(d, c, op)
    ensures ClientsOk(Do(d, c, op))
  {
    var d', r := Do(d, c, op), d.reg;
    if op.Open? {
      OpenClients(d, c, op.depth);
    } else if op.Leaving? {
      LeaveClients(d, c);
    } else if op.Writing? {
      assert QueueOk(r, c);
      TakeConserves(r.conns[c]);
      QueueChange(d, d', c);
    } else if op.Noticing? {
      assert QueueOk(r, c);
      FlushConserves(r.conns[c], op.notices);
      QueueChange(d, d', c);
    } else {
      if op.Subscribing? {
        SubscribeAgrees(r.subs, d.mySubs, op.t, c);
      } else {
        UnsubscribeAgrees(r.subs, d.mySubs, op.t, c);
      }
      forall k | k in d'.reg.conns ensures QueueOk(d'.reg, k) {
        assert QueueOk(r, k);
      }
    }
  }

  // --- through the steps of the cluster ------------------------------------------------------

  ghost predicate AllClientsOk(s: State)
  {
    forall d :: d in s.nodes ==> ClientsOk(s.nodes[d])
  }

  lemma ReceiveClients(s: State, from: string, to: string, f: Frame)
    requires AllClientsOk(s) && to in s.nodes
    ensures AllClientsOk(Receive(s, from, to, f))
  {
    OtherClients(s.nodes[to], Receive(s, from, to, f).nodes[to]);
  }

  lemma PublishClients(s: State, d: string, t: string, key: string, body: seq<string>)
    requires AllClientsOk(s) && d in s.nodes
    ensures AllClientsOk(PublishAt(s, d, t, key, body))
  {
    var n := s.nodes[d];
    if Authorize(n.reg.types, t, key) == Authorized {
      var m := NextMessage(n.reg, t, body);
      var mid := n.(reg := Accept(n.reg.(nextSeq := n.reg.nextSeq + 1), m).1);
      OtherClients(n, mid);
      FanOutClients(mid, m);
    }
  }

  lemma StepClients(s: State, step: Step)
    requires AllClientsOk(s) && Enabled(s, step)
    ensures AllClientsOk(Next(s, step))
  {
    hide Do, CanDo, Receive, PublishStep, Broadcast, Parcels, FanOut, ClientsOk;
    if step.Register? {
      OtherClients(s.nodes[step.d], RegisterAt(s, step.d, step.t, step.key, step.now).nodes[step.d]);
    } else if step.Publish? {
      PublishClients(s, step.d, step.t, step.key, step.body);
    } else if step.Client? {
      DoClients(s.nodes[step.d], step.c, step.op);
    } else if step.FanJob? {
      FanOutClients(s.nodes[s.jobs[step.i].at], s.jobs[step.i].frame.msg);
    } else if step.Deliver? {
      ReceiveClients(Unwire(s, step.e), step.e.src, step.e.dst, s.links[step.e].wire[0]);
    } else if step.DeliverStale? {
      var p := s.stale[step.i];
      ReceiveClients(Unstale(s, step.i), p.src, p.dst, p.frame);
    }
  }

  /** In every state of every run the index, the queues and the delivery history are in order. */
  lemma {:induction false} ClientsAlways(run: seq<State>, steps: seq<Step>, i: nat)
    requires IsRun(run, steps) && i < |run|
    ensures AllClientsOk(run[i])
  {
    if i == 0 {
      forall d | d in run[0].nodes ensures ClientsOk(run[0].nodes[d]) {}
    } else {
      ClientsAlways(run, steps, i - 1);
      assert Enabled(run[i - 1], steps[i - 1]) && run[i - 1 + 1] == Next(run[i - 1], steps[i - 1]);
      StepClients(run[i - 1], steps[i - 1]);
    }
  }
}
