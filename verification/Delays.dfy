/** A fan-out is a job of its own and may come late: how far two fan-outs of one message are apart, exactly
    when they can meet, and a run in which they do. */
module Delays {
  import opened Text
  import opened Messages
  import opened Ownership
  import opened SeenSets
  import opened Registries
  import opened Cluster
  import opened Invariants
  import opened Convergence
  import opened Flooding

  // --- late fan-outs are the only close ones ---------------------------------------------------------

  /** Where `m` occurs for the `n`-th time. */
  function Nth(ms: seq<Message>, m: Message, n: nat): (k: nat)
    requires 1 <= n <= Count(ms, m)
    ensures k < |ms| && ms[k] == m && Count(ms[..k + 1], m) == n
  {
    var last := |ms| - 1;
    if Count(ms[..last], m) >= n then
      var k := Nth(ms[..last], m, n);
      assert ms[..last][..k + 1] == ms[..k + 1];
      k
    else
      assert ms[..last + 1] == ms;
      last
  }

  lemma {:induction false} CountGrows(ms: seq<Message>, more: seq<Message>, m: Message)
    requires ms <= more
    ensures Count(ms, m) <= Count(more, m)
    decreases |more|
  {
    if |ms| == |more| {
      assert ms == more;
    } else {
      CountGrows(ms, more[..|more| - 1], m);
    }
  }

  lemma {:induction false} NthStays(ms: seq<Message>, more: seq<Message>, m: Message, n: nat)
    requires ms <= more && 1 <= n <= Count(ms, m)
    ensures n <= Count(more, m) && Nth(more, m, n) == Nth(ms, m, n)
    decreases |more|
  {
    CountGrows(ms, more, m);
    if |ms| == |more| {
      assert ms == more;
    } else {
      NthStays(ms, more[..|more| - 1], m, n);
    }
  }

  lemma NthsAreSpaced(ms: seq<Message>, cap: nat, m: Message, n: nat)
    requires Spaced(MsgIds(ms), cap) && 1 <= n < Count(ms, m)
    ensures Nth(ms, m, n + 1) - Nth(ms, m, n) > cap
  {
    hide Spaced, Count, Nth;
    var j, k := Nth(ms, m, n), Nth(ms, m, n + 1);
    if k <= j {
      assert ms[..k + 1] <= ms[..j + 1];
      CountGrows(ms[..k + 1], ms[..j + 1], m);
      assert false;
    }
    SpacedApart(ms, cap, j, k);
  }

  lemma {:induction false} AcceptedGrows(run: seq<State>, steps: seq<Step>, a: nat, b: nat, d: string)
    requires IsRun(run, steps) && a <= b < |run| && d in run[a].nodes
    ensures d in run[b].nodes && run[a].nodes[d].reg.accepted <= run[b].nodes[d].reg.accepted
    ensures run[b].nodes[d].reg.seen.cap == run[a].nodes[d].reg.seen.cap
    decreases b
  {
    hide Init, Enabled, Next, Descends;
    if a == b {
    } else {
      AcceptedGrows(run, steps, a, b - 1, d);
      assert Enabled(run[b - 1], steps[b - 1]) && run[b - 1 + 1] == Next(run[b - 1], steps[b - 1]);
      StepGrows(run[b - 1], steps[b - 1]);
      assert RegGrows(run[b - 1].nodes[d].reg, run[b].nodes[d].reg);
    }
  }

  /** In every run: from the acceptance that the `n`-th fan-out of `m` at `d` belongs to until the next
      fan-out of `m` there, `d` accepts more than `cap` further messages.  So what is missing to that
      between two fan-outs was accepted while the first one was late. */
  lemma FanOutsAreSpaced(run: seq<State>, steps: seq<Step>, a: nat, b: nat, d: string, m: Message, n: nat)
    requires IsRun(run, steps) && ProperStart(run[0]) && a <= b < |run| && d in run[a].nodes
    requires d in run[b].nodes && 1 <= n <= FannedCount(run[a].nodes[d].reg.fanned, m)
    requires n < FannedCount(run[b].nodes[d].reg.fanned, m)
    ensures n <= Count(run[a].nodes[d].reg.accepted, m)
    ensures |run[b].nodes[d].reg.accepted| > Nth(run[a].nodes[d].reg.accepted, m, n) + run[b].nodes[d].reg.seen.cap + 1
  {
    hide IsRun, ProperStart, Count, FannedCount, WaitingCount, Nth, Spaced, OriginsKnow, InFlightOk, ClaimsOk;
    SameDaemonsAt(run, steps, a);
    FloodAlways(run, steps, a, d, m);
    FloodAlways(run, steps, b, d, m);
    AcceptedGrows(run, steps, a, b, d);
    Always(run, steps, b);
    assert DaemonOk(run[b], d);
    var early, late := run[a].nodes[d].reg.accepted, run[b].nodes[d].reg.accepted;
    NthStays(early, late, m, n);
    NthsAreSpaced(late, run[b].nodes[d].reg.seen.cap, m, n);
  }

  // --- when two fan-outs can meet -----------------------------------------------------------------------

  /** Job `i` can fan out `m` at `d` now. */
  ghost predicate CanFan(s: State, i: nat, d: string, m: Message)
  {
    Enabled(s, FanJob(i)) && s.jobs[i].at == d && s.jobs[i].frame == Feed(m)
  }

  /** Two fan-outs of `m` at `d` can be the next two steps. */
  ghost predicate CanMeet(s: State, d: string, m: Message)
  {
    exists i, j :: CanFan(s, i, d, m) && CanFan(FanAt(s, i), j, d, m)
  }

  /** Then the listeners of that moment get it twice, with no acceptance in between. */
  lemma MeetingFanOuts(s: State, i: nat, j: nat, d: string, m: Message)
    requires CanFan(s, i, d, m) && CanFan(FanAt(s, i), j, d, m)
    ensures var r, r' := s.nodes[d].reg, FanAt(FanAt(s, i), j).nodes[d].reg;
            var e := FanEvent(m, Listeners(r.subs, m.typeName));
            r'.accepted == r.accepted && r'.fanned == r.fanned + [e, e]
  {
  }

  lemma {:induction false} FindWaiting(jobs: seq<Job>, d: string, m: Message) returns (i: nat)
    requires WaitingCount(jobs, d, m) > 0
    ensures i < |jobs| && WaitingOne(jobs[i], d, m) == 1
  {
    i := |jobs| - 1;
    if WaitingOne(jobs[i], d, m) == 0 {
      i := FindWaiting(jobs[..i], d, m);
    }
  }

  lemma FanUncounts(s: State, i: nat, d: string, m: Message)
    requires CanFan(s, i, d, m)
    ensures WaitingCount(s.jobs, d, m) == WaitingCount(FanAt(s, i).jobs, d, m) + 1
  {
    WaitingUpdate(s.jobs, i, s.jobs[i].(fanned := true), d, m);
  }

  lemma WaitingIsPositive(s: State, i: nat, d: string, m: Message)
    requires CanFan(s, i, d, m)
    ensures WaitingCount(s.jobs, d, m) > 0
  {
    FanUncounts(s, i, d, m);
  }

  lemma MeetIff(s: State, d: string, m: Message)
    requires d in s.nodes
    ensures CanMeet(s, d, m) <==> WaitingCount(s.jobs, d, m) >= 2
  {
    hide WaitingCount;
    if CanMeet(s, d, m) {
      var i, j :| CanFan(s, i, d, m) && CanFan(FanAt(s, i), j, d, m);
      FanUncounts(s, i, d, m);
      WaitingIsPositive(FanAt(s, i), j, d, m);
    }
    if WaitingCount(s.jobs, d, m) >= 2 {
      var i := FindWaiting(s.jobs, d, m);
      assert CanFan(s, i, d, m);
      FanUncounts(s, i, d, m);
      var j := FindWaiting(FanAt(s, i).jobs, d, m);
      assert CanFan(FanAt(s, i), j, d, m);
    }
  }

  /** In every state of every run two fan-outs of `m` can meet at `d` if and only if `d` has accepted `m` twice
      more than it has fanned it out: it accepted `m` again while an earlier fan-out was still late. */
  lemma FanOutsMeetIff(run: seq<State>, steps: seq<Step>, i: nat, d: string, m: Message)
    requires IsRun(run, steps) && ProperStart(run[0]) && i < |run| && d in run[i].nodes
    ensures CanMeet(run[i], d, m)
       <==> Count(run[i].nodes[d].reg.accepted, m) >= FannedCount(run[i].nodes[d].reg.fanned, m) + 2
  {
    hide IsRun, ProperStart, CanMeet, OriginsKnow;
    SameDaemonsAt(run, steps, i);
    FloodAlways(run, steps, i, d, m);
    MeetIff(run[i], d, m);
  }

  // --- a run in which they meet -------------------------------------------------------------------------

  const PD := Edge("p", "d")
  const PQ := Edge("p", "q")
  const QD := Edge("q", "d")
  const M := Message("t", MsgId("p", 1), "p", [])
  /** The broadcast of the registration at `p`, which stays pending throughout. */
  const LATE := Job("p", Rreg("t", TypeReg("k", "p", 0)), None, true)

  /** The reader of a link takes its next frame only when its job for the last one is done; no frame of a
      dead socket is read. */
  ghost predicate ReaderIsFree(s: State, step: Step)
  {
    && !step.DeliverStale?
    && (step.Deliver? ==> forall j :: j in s.jobs && j.at == step.e.dst ==> j.exclude != Some(step.e.src))
  }

  ghost predicate OneFrameAtATime(run: seq<State>, steps: seq<Step>)
    requires |steps| <= |run|
  {
    forall i :: 0 <= i < |steps| ==> ReaderIsFree(run[i], steps[i])
  }

  ghost predicate Orderly(run: seq<State>, steps: seq<Step>, last: State)
  {
    EndsIn(run, steps, last) && OneFrameAtATime(run, steps)
  }

  lemma Then(run: seq<State>, steps: seq<Step>, last: State, step: Step)
    returns (run': seq<State>, steps': seq<Step>, next: State)
    requires Orderly(run, steps, last) && Enabled(last, step) && ReaderIsFree(last, step)
    ensures next == Next(last, step) && Orderly(run', steps', next) && Inv(next)
  {
    hide Init, Enabled, Next, ReaderIsFree, Inv;
    next := Next(last, step);
    run', steps' := Extend(run, steps, last, step);
    forall i | 0 <= i < |steps'| ensures ReaderIsFree(run'[i], steps'[i]) {
      if i < |steps| {
        assert ReaderIsFree(run[i], steps[i]);
      }
    }
    Always(run', steps', |steps'|);
  }

  /** What a link carries. */
  datatype Pipe = Pipe(queue: seq<Frame>, wire: seq<Frame>)

  const EMPTY := Pipe([], [])
  const QUEUED := Pipe([Feed(M)], [])
  const SENT := Pipe([], [Feed(M)])

  /** What `q` and `d` accepted, what the links carry and what is pending. */
  datatype View = View(q: seq<Message>, d: seq<Message>, pd: Pipe, pq: Pipe, qd: Pipe, jobs: seq<Job>)

  ghost predicate HasAccepted(s: State, id: string, cap: nat, ms: seq<Message>)
  {
    && id in s.nodes && s.nodes[id].reg.id == id && s.nodes[id].reg.seen.cap == cap
    && s.nodes[id].reg.accepted == ms
  }

  ghost predicate Owns(s: State, id: string)
    requires id in s.nodes
  {
    Authorize(s.nodes[id].reg.types, "t", "k") == Authorized
  }

  ghost predicate Carries(s: State, e: Edge, p: Pipe)
  {
    e in s.links && s.links[e].read && s.links[e].snap == [] && s.links[e].queue == p.queue && s.links[e].wire == p.wire
  }

  ghost predicate Looks(s: State, cap: nat, v: View)
  {
    && "p" in s.nodes && HasAccepted(s, "q", cap, v.q) && HasAccepted(s, "d", cap, v.d) && Owns(s, "d")
    && s.links.Keys == {PD, PQ, QD} && Carries(s, PD, v.pd) && Carries(s, PQ, v.pq) && Carries(s, QD, v.qd)
    && s.jobs == v.jobs
  }

  const UP := Link(true, [], [], [], {}, 0)

  lemma Connected(run: seq<State>, steps: seq<Step>, s: State, e: Edge)
    returns (run': seq<State>, steps': seq<Step>, s': State)
    requires Orderly(run, steps, s) && e !in s.links && e.src in s.nodes && e.dst in s.nodes
    requires s.nodes[e.src].reg.types == map[] && s.nodes[e.src].reg.accepted == []
    ensures s' == s.(links := s.links[e := UP]) && Orderly(run', steps', s') && Inv(s')
  {
    hide Orderly, Inv, Receive, RegisterAt, PublishAt, Do, Broadcast;
    run', steps', s' := Then(run, steps, s, Install(e));
    run', steps', s' := Then(run', steps', s', Snapshot(e, []));
  }

  function Fresh(cap: nat): State
  {
    State(map["p" := Daemon(NewRegistry("p", cap), 0, map[]), "q" := Daemon(NewRegistry("q", cap), 0, map[]),
              "d" := Daemon(NewRegistry("d", cap), 0, map[])],
          map[], [], [], {}, {})
  }

  /** Three fresh daemons, with links from `p` to both others and from `q` to `d`. */
  lemma Linked(cap: nat) returns (run: seq<State>, steps: seq<Step>, s: State)
    requires cap >= 1
    ensures s == Fresh(cap).(links := map[PD := UP, PQ := UP, QD := UP]) && Orderly(run, steps, s)
  {
    s := Fresh(cap);
    run, steps := [s], [];
    assert Orderly(run, steps, s);
    hide Orderly, Inv;
    run, steps, s := Connected(run, steps, s, PD);
    run, steps, s := Connected(run, steps, s, PQ);
    run, steps, s := Connected(run, steps, s, QD);
  }

  function Claimed(s: State, id: string): State
    requires id in s.nodes
  {
    var n, reg := s.nodes[id], TypeReg("k", s.nodes[id].reg.id, 0);
    s.(nodes := s.nodes[id := n.(reg := n.reg.(types := n.reg.types["t" := reg]))],
       jobs := s.jobs + [Job(id, Rreg("t", reg), None, true)],
       registered := s.registered + {Claim("t", reg)})
  }

  lemma FirstRegister(s: State, id: string)
    requires id in s.nodes && "t" !in s.nodes[id].reg.types
    ensures Enabled(s, Register(id, "t", "k", 0)) && Next(s, Register(id, "t", "k", 0)) == Claimed(s, id)
  {
  }

  /** A broadcast where no link begins only ends the job. */
  lemma SendNowhere(s: State, j: Job, init: seq<Job>)
    requires s.jobs == init + [j] && j.fanned && forall e :: e in s.links ==> e.src != j.at
    ensures Enabled(s, SendJob(|init|)) && Next(s, SendJob(|init|)) == s.(jobs := init)
  {
    assert RemoveAt(s.jobs, |init|) == init;
    assert Broadcast(s.links, j.at, j.frame, j.exclude) == s.links;
  }

  /** The type is then registered at `p`, whose broadcast stays pending, and at `d`. */
  lemma Prepared(cap: nat) returns (run: seq<State>, steps: seq<Step>, s: State)
    requires cap >= 1
    ensures Orderly(run, steps, s) && Inv(s) && Looks(s, cap, View([], [], EMPTY, EMPTY, EMPTY, [LATE]))
    ensures HasAccepted(s, "p", cap, []) && Owns(s, "p") && s.nodes["p"].reg.nextSeq == 1
  {
    hide Orderly, Inv, Enabled, Next;
    run, steps, s := Linked(cap);
    FirstRegister(s, "p");
    run, steps, s := Then(run, steps, s, Register("p", "t", "k", 0));
    assert s.jobs == [LATE];
    FirstRegister(s, "d");
    run, steps, s := Then(run, steps, s, Register("d", "t", "k", 0));
    SendNowhere(s, Job("d", Rreg("t", TypeReg("k", "d", 0)), None, true), [LATE]);
    run, steps, s := Then(run, steps, s, SendJob(1));
  }

  const OWN := Job("p", Feed(M), None, true)
  const PASSED := Job("q", Feed(M), Some("p"), false)

  /** `p` publishes and sends to both its peers. */
  lemma Published(s: State, cap: nat)
    requires Inv(s) && Looks(s, cap, View([], [], EMPTY, EMPTY, EMPTY, [LATE]))
    requires HasAccepted(s, "p", cap, []) && Owns(s, "p") && s.nodes["p"].reg.nextSeq == 1
    ensures Enabled(s, Publish("p", "t", "k", []))
    ensures Looks(Next(s, Publish("p", "t", "k", [])), cap, View([], [], EMPTY, EMPTY, EMPTY, [LATE, OWN]))
  {
    hide Inv, Print, FanOut, Accept;
    assert NextMessage(s.nodes["p"].reg, "t", []) == M;
    assert [LATE] + [OWN] == [LATE, OWN];
  }

  lemma Sent(s: State, cap: nat)
    requires Looks(s, cap, View([], [], EMPTY, EMPTY, EMPTY, [LATE, OWN]))
    ensures Enabled(s, SendJob(1))
    ensures Looks(Next(s, SendJob(1)), cap, View([], [], QUEUED, QUEUED, EMPTY, [LATE]))
  {
    hide Print;
    assert RemoveAt(s.jobs, 1) == [LATE];
    assert [] + [Feed(M)] == [Feed(M)];
  }

  lemma Written(s: State, cap: nat, v: View, e: Edge)
    requires Looks(s, cap, v) && e in s.links
    ensures e == PD && v.pd == QUEUED ==> Enabled(s, Write(e)) && Looks(Next(s, Write(e)), cap, v.(pd := SENT))
    ensures e == PQ && v.pq == QUEUED ==> Enabled(s, Write(e)) && Looks(Next(s, Write(e)), cap, v.(pq := SENT))
    ensures e == QD && v.qd == QUEUED ==> Enabled(s, Write(e)) && Looks(Next(s, Write(e)), cap, v.(qd := SENT))
  {
    hide Print;
    assert [Feed(M)][1..] == [] && [] + [Feed(M)] == [Feed(M)];
  }

  /** The effect of taking the message from a link when its id is not in the window. */
  lemma Takes(s: State, e: Edge)
    requires Carries(s, e, SENT) && e.dst in s.nodes && M.msgId !in s.nodes[e.dst].reg.seen.order
    ensures Enabled(s, Deliver(e))
    ensures var s' := Next(s, Deliver(e));
            && s'.links == s.links[e := s.links[e].(wire := [])]
            && s'.jobs == s.jobs + [Job(e.dst, Feed(M), Some(e.src), false)]
            && s'.nodes.Keys == s.nodes.Keys
            && (forall id :: id in s.nodes && id != e.dst ==> s'.nodes[id] == s.nodes[id])
            && var r, r' := s.nodes[e.dst].reg, s'.nodes[e.dst].reg;
               r'.id == r.id && r'.types == r.types && r'.seen.cap == r.seen.cap && r'.accepted == r.accepted + [M]
  {
    hide Print;
    assert [Feed(M)][1..] == [];
    assert M.body == [] && BodySize(M.body) == 0;
  }

  lemma NothingSeen(s: State, id: string)
    requires Inv(s) && id in s.nodes && s.nodes[id].reg.accepted == []
    ensures M.msgId !in s.nodes[id].reg.seen.order
  {
    hide Print;
    assert DaemonOk(s, id);
  }

  lemma LooksOtherwise(s: State, cap: nat, v: View, jobs: seq<Job>)
    requires Looks(s, cap, v)
    ensures Looks(s.(jobs := jobs), cap, v.(jobs := jobs))
  {
  }

  /** `q` takes the message, fans it out and passes it on. */
  lemma TakenByQ(s: State, cap: nat)
    requires Inv(s) && Looks(s, cap, View([], [], SENT, SENT, EMPTY, [LATE]))
    ensures Enabled(s, Deliver(PQ)) && ReaderIsFree(s, Deliver(PQ))
    ensures Looks(Next(s, Deliver(PQ)), cap, View([M], [], SENT, EMPTY, EMPTY, [LATE, PASSED]))
  {
    hide Print, Inv, Enabled, Next;
    NothingSeen(s, "q");
    Takes(s, PQ);
    assert [LATE] + [PASSED] == [LATE, PASSED] && [] + [M] == [M];
  }

  lemma FannedByQ(s: State, cap: nat)
    requires Looks(s, cap, View([M], [], SENT, EMPTY, EMPTY, [LATE, PASSED]))
    ensures Enabled(s, FanJob(1))
    ensures Looks(Next(s, FanJob(1)), cap, View([M], [], SENT, EMPTY, EMPTY, [LATE, PASSED.(fanned := true)]))
  {
    hide Print;
    assert [LATE, PASSED][1 := PASSED.(fanned := true)] == [LATE, PASSED.(fanned := true)];
  }

  lemma PassedByQ(s: State, cap: nat)
    requires Looks(s, cap, View([M], [], SENT, EMPTY, EMPTY, [LATE, PASSED.(fanned := true)]))
    ensures Enabled(s, SendJob(1))
    ensures Looks(Next(s, SendJob(1)), cap, View([M], [], SENT, EMPTY, QUEUED, [LATE]))
  {
    hide Print;
    assert RemoveAt(s.jobs, 1) == [LATE];
    assert [] + [Feed(M)] == [Feed(M)];
  }

  /** The message is on its way to `d` from both sides. */
  lemma Spread(cap: nat) returns (run: seq<State>, steps: seq<Step>, s: State)
    requires cap >= 1
    ensures Orderly(run, steps, s) && Inv(s) && Looks(s, cap, View([M], [], SENT, EMPTY, SENT, [LATE]))
  {
    hide Orderly, Inv, Enabled, Next, Carries, HasAccepted, Owns, Print;
    run, steps, s := Prepared(cap);
    Published(s, cap);
    run, steps, s := Then(run, steps, s, Publish("p", "t", "k", []));
    Sent(s, cap);
    run, steps, s := Then(run, steps, s, SendJob(1));
    Written(s, cap, View([], [], QUEUED, QUEUED, EMPTY, [LATE]), PD);
    run, steps, s := Then(run, steps, s, Write(PD));
    Written(s, cap, View([], [], SENT, QUEUED, EMPTY, [LATE]), PQ);
    run, steps, s := Then(run, steps, s, Write(PQ));
    TakenByQ(s, cap);
    run, steps, s := Then(run, steps, s, Deliver(PQ));
    FannedByQ(s, cap);
    run, steps, s := Then(run, steps, s, FanJob(1));
    PassedByQ(s, cap);
    run, steps, s := Then(run, steps, s, SendJob(1));
    Written(s, cap, View([M], [], SENT, EMPTY, QUEUED, [LATE]), QD);
    run, steps, s := Then(run, steps, s, Write(QD));
  }

  const FIRST := Job("d", Feed(M), Some("p"), false)
  const SECOND := Job("d", Feed(M), Some("q"), false)

  /** `d` takes it from `p`; its fan-out is late. */
  lemma TakenFromP(s: State, cap: nat)
    requires Inv(s) && Looks(s, cap, View([M], [], SENT, EMPTY, SENT, [LATE]))
    ensures Enabled(s, Deliver(PD)) && ReaderIsFree(s, Deliver(PD))
    ensures Looks(Next(s, Deliver(PD)), cap, View([M], [M], EMPTY, EMPTY, SENT, [LATE, FIRST]))
  {
    hide Print, Inv, Enabled, Next;
    NothingSeen(s, "d");
    Takes(s, PD);
    assert [LATE] + [FIRST] == [LATE, FIRST] && [] + [M] == [M];
  }

  /** Meanwhile `d` publishes. */
  lemma PublishedByD(s: State, cap: nat, ks: seq<Message>) returns (k: Message)
    requires Inv(s) && Looks(s, cap, View([M], [M] + ks, EMPTY, EMPTY, SENT, [LATE, FIRST]))
    ensures k.origin == "d"
    ensures Enabled(s, Publish("d", "t", "k", []))
    ensures Looks(Next(s, Publish("d", "t", "k", [])), cap,
                  View([M], [M] + (ks + [k]), EMPTY, EMPTY, SENT, [LATE, FIRST] + [Job("d", Feed(k), None, true)]))
  {
    hide Print, FanOut, Accept, AllNumbered, IdsUnique, InFlightOk, ClaimsOk, Last, MsgIds;
    k := NextMessage(s.nodes["d"].reg, "t", []);
    PublishEffect(s, "d", "t", "k", []);
    assert [M] + ks + [k] == [M] + (ks + [k]);
  }

  lemma {:induction false} Evicting(cap: nat, n: nat)
    returns (run: seq<State>, steps: seq<Step>, s: State, ks: seq<Message>)
    requires cap >= 1
    ensures Orderly(run, steps, s) && Inv(s) && Looks(s, cap, View([M], [M] + ks, EMPTY, EMPTY, SENT, [LATE, FIRST]))
    ensures |ks| == n && forall k :: k in ks ==> k.origin == "d"
  {
    hide Orderly, Inv, Enabled, Next, Carries, HasAccepted, Owns, Print;
    if n == 0 {
      run, steps, s := Spread(cap);
      TakenFromP(s, cap);
      run, steps, s := Then(run, steps, s, Deliver(PD));
      ks := [];
      assert [M] + ks == [M];
    } else {
      run, steps, s, ks := Evicting(cap, n - 1);
      var k := PublishedByD(s, cap, ks);
      ks := ks + [k];
      run, steps, s := Then(run, steps, s, Publish("d", "t", "k", []));
      SendNowhere(s, Job("d", Feed(k), None, true), [LATE, FIRST]);
      LooksOtherwise(s, cap, View([M], [M] + ks, EMPTY, EMPTY, SENT, s.jobs), [LATE, FIRST]);
      run, steps, s := Then(run, steps, s, SendJob(2));
    }
  }

  /** Its window now holds only what `d` published. */
  lemma Evicted(s: State, cap: nat, ks: seq<Message>)
    requires Inv(s) && HasAccepted(s, "d", cap, [M] + ks)
    requires |ks| == cap && forall k :: k in ks ==> k.origin == "d"
    ensures M.msgId !in s.nodes["d"].reg.seen.order
  {
    hide Print;
    assert DaemonOk(s, "d");
    var r := s.nodes["d"].reg;
    assert MsgIds([M] + ks)[1..] == MsgIds(ks);
    assert r.seen.order == MsgIds(ks);
    forall i | 0 <= i < |ks| ensures ks[i].msgId != M.msgId {
      assert ks[i] in ks && ks[i] in r.accepted;
      assert Numbered(s, ks[i]);
      var n: nat :| IsNumber(ks[i], n);
      assert MsgId("d", n)[0] == 'd' && MsgId("p", 1)[0] == 'p';
    }
  }

  /** So `d` takes the message again, from `q`. */
  lemma TakenFromQ(s: State, cap: nat, ks: seq<Message>)
    requires Inv(s) && Looks(s, cap, View([M], [M] + ks, EMPTY, EMPTY, SENT, [LATE, FIRST]))
    requires M.msgId !in s.nodes["d"].reg.seen.order
    ensures Enabled(s, Deliver(QD)) && ReaderIsFree(s, Deliver(QD))
    ensures Next(s, Deliver(QD)).jobs == [LATE, FIRST, SECOND]
    ensures HasAccepted(Next(s, Deliver(QD)), "d", cap, [M] + ks + [M])
  {
    hide Print, Inv, Enabled, Next;
    Takes(s, QD);
    assert [LATE, FIRST] + [SECOND] == [LATE, FIRST, SECOND];
  }

  lemma BothWait(s: State)
    requires "d" in s.nodes && s.jobs == [LATE, FIRST, SECOND]
    ensures CanMeet(s, "d", M)
  {
    hide Print;
    assert CanFan(s, 1, "d", M) && CanFan(FanAt(s, 1), 2, "d", M);
  }

  /** For a window of any size there is a run, in which each reader finishes with a frame before it takes the
      next, that brings two fan-outs of one message together: the first waits while `d` publishes `cap`
      messages of its own, which evict it, and the message arrives again from another peer. */
  lemma FanOutsCanMeet(cap: nat) returns (run: seq<State>, steps: seq<Step>)
    requires cap >= 1
    ensures IsRun(run, steps) && ProperStart(run[0]) && OneFrameAtATime(run, steps)
    ensures "d" in run[|steps|].nodes && run[|steps|].nodes["d"].reg.seen.cap == cap
    ensures CanMeet(run[|steps|], "d", M)
  {
    hide IsRun, ProperStart, OneFrameAtATime, Inv, Enabled, Next, Carries, Owns, Print, CanMeet;
    var s, ks;
    run, steps, s, ks := Evicting(cap, cap);
    Evicted(s, cap, ks);
    TakenFromQ(s, cap, ks);
    run, steps, s := Then(run, steps, s, Deliver(QD));
    BothWait(s);
  }
}
