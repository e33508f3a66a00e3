/** A connection is offered the messages published at its own daemon in the order of their numbers. */
module Ordering {
  import opened Messages
  import opened Registries
  import opened Cluster
  import opened Invariants
  import opened Convergence
  import opened Delivery
  import opened Flooding
  import opened Safety

  /** `m` was numbered before `k` by their common origin. */
  ghost predicate Earlier(m: Message, k: Message)
  {
    m.origin == k.origin && exists a: nat, b: nat :: IsNumber(m, a) && IsNumber(k, b) && a < b
  }

  /** Messages of origin `d` come in the order of their numbers. */
  ghost predicate InOrder(ms: seq<Message>, d: string)
  {
    forall i, j :: 0 <= i < j < |ms| && ms[i].origin == d && ms[j].origin == d ==> Earlier(ms[i], ms[j])
  }

  lemma FannedSnocIs(events: seq<FanEvent>, e: FanEvent)
    ensures Fanned(events + [e]) == Fanned(events) + [e.msg]
  {
  }

  lemma FannedFrom(events: seq<FanEvent>, m: Message)
    requires m in Fanned(events)
    ensures exists e :: e in events && e.msg == m
  {
    var i :| 0 <= i < |events| && Fanned(events)[i] == m;
    assert events[i] in events;
  }

  lemma InOrderSnoc(ms: seq<Message>, m: Message, d: string)
    requires InOrder(ms, d)
    requires m.origin == d ==> forall k :: k in ms && k.origin == d ==> Earlier(k, m)
    ensures InOrder(ms + [m], d)
  {
    hide Earlier;
    assert forall i :: 0 <= i < |ms| ==> ms[i] in ms;
  }

  /** What a connection heard is in order if what was fanned out is. */
  lemma {:induction false} HeardInOrder(events: seq<FanEvent>, c: nat, d: string)
    requires InOrder(Fanned(events), d)
    ensures InOrder(Heard(events, c), d)
    ensures forall m :: m in Heard(events, c) ==> m in Fanned(events)
  {
    hide Earlier;
    if events == [] {
    } else {
      var init, last := events[..|events| - 1], events[|events| - 1];
      FannedSnocIs(init, last);
      assert events == init + [last];
      InOrderPrefix(Fanned(init), last.msg, d);
      HeardInOrder(init, c, d);
      if c in last.listeners {
        forall k | last.msg.origin == d && k in Heard(init, c) && k.origin == d ensures Earlier(k, last.msg) {
          LastIsLater(Fanned(init), last.msg, k, d);
        }
        InOrderSnoc(Heard(init, c), last.msg, d);
      } else {
        assert Heard(events, c) == Heard(init, c) + [] == Heard(init, c);
      }
    }
  }

  lemma InOrderPrefix(ms: seq<Message>, m: Message, d: string)
    requires InOrder(ms + [m], d)
    ensures InOrder(ms, d)
  {
    hide Earlier;
    assert forall i :: 0 <= i < |ms| ==> (ms + [m])[i] == ms[i];
  }

  lemma LastIsLater(ms: seq<Message>, m: Message, k: Message, d: string)
    requires InOrder(ms + [m], d) && k in ms && k.origin == d && m.origin == d
    ensures Earlier(k, m)
  {
    hide Earlier;
    var i :| 0 <= i < |ms| && ms[i] == k;
    assert (ms + [m])[i] == k && (ms + [m])[|ms|] == m;
  }

  // --- no message comes back to its origin as news ---------------------------------------------------

  /** The messages fanned out, in order. */
  function Fanned(events: seq<FanEvent>): seq<Message>
  {
    seq(|events|, i requires 0 <= i < |events| => events[i].msg)
  }

  /** Nothing of its own waits to be fanned out at `d`. */
  ghost predicate NoneReturned(s: State, d: string)
  {
    forall j :: j in s.jobs && j.at == d && !j.fanned && j.frame.Feed? ==> j.frame.msg.origin != d
  }

  lemma ReceiveReturnsNone(s: State, from: string, to: string, f: Frame, d: string)
    requires MessagesOk(s) && OriginsKnow(s) && d in s.nodes && Unevicted(s, d) && NoneReturned(s, d)
    requires to in s.nodes && Genuine(s, f)
    ensures NoneReturned(Receive(s, from, to, f), d)
  {
    if f.Feed? && to == d && f.msg.origin == d {
      assert Knows(s, d, Feed(f.msg));
      KnownIsDuplicate(s, d, f.msg);
    }
  }

  lemma StepReturnsNone(s: State, step: Step, d: string)
    requires MessagesOk(s) && InFlightOk(s) && OriginsKnow(s) && d in s.nodes && Unevicted(s, d)
    requires NoneReturned(s, d) && Enabled(s, step)
    ensures NoneReturned(Next(s, step), d)
  {
    if step.Deliver? {
      DeliverReturnsNone(s, step.e, d);
    } else if step.DeliverStale? {
      var p := s.stale[step.i];
      assert p in s.stale && FrameOk(s, p.src, p.frame);
      var mid := Unstale(s, step.i);
      GrowsByNone(s, mid);
      MessagesSame(s, mid);
      ReceiveReturnsNone(mid, p.src, p.dst, p.frame, d);
    } else {
      OthersReturnNone(s, step, d);
    }
  }

  lemma DeliverReturnsNone(s: State, e: Edge, d: string)
    requires MessagesOk(s) && InFlightOk(s) && OriginsKnow(s) && d in s.nodes && Unevicted(s, d)
    requires NoneReturned(s, d) && Enabled(s, Deliver(e))
    ensures NoneReturned(Next(s, Deliver(e)), d)
  {
    assert LinkOk(s, e) && Holds(s.links[e], s.links[e].wire[0]);
    var mid := Unwire(s, e);
    GrowsByNone(s, mid);
    MessagesSame(s, mid);
    ReceiveReturnsNone(mid, e.src, e.dst, s.links[e].wire[0], d);
  }

  lemma OthersReturnNone(s: State, step: Step, d: string)
    requires NoneReturned(s, d) && Enabled(s, step) && !step.Deliver? && !step.DeliverStale?
    ensures NoneReturned(Next(s, step), d)
  {
    if step.SendJob? {
      assert forall j :: j in RemoveAt(s.jobs, step.i) ==> j in s.jobs;
    } else if step.FanJob? {
      assert forall j :: j in Next(s, step).jobs ==> j in s.jobs || j.fanned;
    }
  }

  // --- fan-outs are in order -----------------------------------------------------------------------------

  ghost predicate FansInOrder(s: State, d: string)
    requires d in s.nodes
  {
    InOrder(Fanned(s.nodes[d].reg.fanned), d)
  }

  lemma NextIsLater(s: State, d: string, t: string, body: seq<string>, k: Message)
    requires MessagesOk(s) && d in s.nodes && k in s.published && k.origin == d
    ensures Earlier(k, NextMessage(s.nodes[d].reg, t, body))
  {
    assert Numbered(s, k) && DaemonOk(s, d);
    var a: nat :| IsNumber(k, a) && a < s.nodes[k.origin].reg.nextSeq;
    assert IsNumber(NextMessage(s.nodes[d].reg, t, body), s.nodes[d].reg.nextSeq);
  }

  lemma PublishInOrder(s: State, at: string, t: string, key: string, body: seq<string>, d: string)
    requires d in s.nodes && FansInOrder(s, d) && MessagesOk(s) && FannedOk(s) && at in s.nodes
    ensures FansInOrder(PublishAt(s, at, t, key, body), d)
  {
    hide Earlier, InOrder;
    var r := s.nodes[d].reg;
    if at == d && Authorize(r.types, t, key) == Authorized {
      var m := NextMessage(r, t, body);
      forall k | k in Fanned(r.fanned) && k.origin == d ensures Earlier(k, m) {
        FannedFrom(r.fanned, k);
        NextIsLater(s, d, t, body, k);
      }
      InOrderSnoc(Fanned(r.fanned), m, d);
      FannedSnocIs(r.fanned, FanEvent(m, Listeners(r.subs, t)));
    }
  }

  lemma FanInOrder(s: State, i: nat, d: string)
    requires d in s.nodes && FansInOrder(s, d) && NoneReturned(s, d) && Enabled(s, FanJob(i))
    ensures FansInOrder(FanAt(s, i), d)
  {
    hide Earlier, InOrder;
    var j := s.jobs[i];
    assert j in s.jobs;
    if j.at == d {
      var r, m := s.nodes[d].reg, j.frame.msg;
      InOrderSnoc(Fanned(r.fanned), m, d);
      FannedSnocIs(r.fanned, FanEvent(m, Listeners(r.subs, m.typeName)));
    }
  }

  lemma StepInOrder(s: State, step: Step, d: string)
    requires d in s.nodes && FansInOrder(s, d) && MessagesOk(s) && FannedOk(s) && NoneReturned(s, d)
    requires Enabled(s, step)
    ensures d in Next(s, step).nodes && FansInOrder(Next(s, step), d)
  {
    hide InOrder, MessagesOk, FannedOk;
    if step.Publish? {
      PublishInOrder(s, step.d, step.t, step.key, step.body, d);
    } else if step.FanJob? {
      FanInOrder(s, step.i, d);
    } else {
      QuietFanned(s, step);
      assert Fanned(Next(s, step).nodes[d].reg.fanned) == Fanned(s.nodes[d].reg.fanned);
    }
  }

  lemma UnevictedBefore(s: State, s': State, d: string)
    requires Grows(s, s') && d in s.nodes && Unevicted(s', d)
    ensures Unevicted(s, d)
  {
    assert RegGrows(s.nodes[d].reg, s'.nodes[d].reg);
  }

  lemma {:induction false} OrderAlways(run: seq<State>, steps: seq<Step>, i: nat, d: string)
    requires IsRun(run, steps) && ProperStart(run[0]) && i < |run| && d in run[i].nodes && Unevicted(run[i], d)
    ensures FansInOrder(run[i], d) && NoneReturned(run[i], d) && OriginsKnow(run[i])
  {
    hide Enabled, Next, MessagesOk, ClaimsOk, Coverage.Covered, InFlightOk, FannedOk;
    if i == 0 {
    } else {
      assert Enabled(run[i - 1], steps[i - 1]) && run[i - 1 + 1] == Next(run[i - 1], steps[i - 1]);
      StepGrows(run[i - 1], steps[i - 1]);
      UnevictedBefore(run[i - 1], run[i], d);
      OrderAlways(run, steps, i - 1, d);
      Always(run, steps, i - 1);
      FannedAlways(run, steps, i - 1);
      StepReturnsNone(run[i - 1], steps[i - 1], d);
      StepInOrder(run[i - 1], steps[i - 1], d);
      StepOrigins(run[i - 1], steps[i - 1]);
    }
  }

  /** In every reachable state, as long as its daemon's own window has evicted nothing: what a connection
      was offered of that daemon's messages is in strictly increasing order of their numbers. */
  lemma OfferedInOrder(run: seq<State>, steps: seq<Step>, i: nat, d: string, c: nat)
    requires IsRun(run, steps) && ProperStart(run[0]) && i < |run|
    requires d in run[i].nodes && c in run[i].nodes[d].reg.conns && Unevicted(run[i], d)
    ensures InOrder(run[i].nodes[d].reg.conns[c].offered, d)
  {
    hide IsRun, ProperStart, InOrder;
    var r := run[i].nodes[d].reg;
    OrderAlways(run, steps, i, d);
    ClientsAlways(run, steps, i);
    assert QueueOk(r, c);
    HeardInOrder(r.fanned, c, d);
  }
}
