/** Messages flood to every reachable daemon and reach each subscriber at most once. */
module Flooding {
  import opened Text
  import opened Messages
  import opened Ownership
  import opened SeenSets
  import opened Outbound
  import opened Registries
  import opened Cluster
  import opened Invariants
  import opened Coverage
  import opened Convergence
  import opened Delivery

  // --- every accepted message is fanned out once, now or later -------------------------------

  function Count(ms: seq<Message>, m: Message): nat
  {
    if ms == [] then 0 else Count(ms[..|ms| - 1], m) + if ms[|ms| - 1] == m then 1 else 0
  }

  function FannedCount(fanned: seq<FanEvent>, m: Message): nat
  {
    if fanned == [] then 0
    else FannedCount(fanned[..|fanned| - 1], m) + if fanned[|fanned| - 1].msg == m then 1 else 0
  }

  function WaitingOne(j: Job, d: string, m: Message): nat
  {
    if j.at == d && !j.fanned && j.frame == Feed(m) then 1 else 0
  }

  /** How often `m` waits at daemon `d`, accepted from a peer but not yet fanned out. */
  function WaitingCount(jobs: seq<Job>, d: string, m: Message): nat
  {
    if jobs == [] then 0 else WaitingCount(jobs[..|jobs| - 1], d, m) + WaitingOne(jobs[|jobs| - 1], d, m)
  }

  /** Each acceptance of `m` has been fanned out once or will be. */
  ghost predicate Balanced(s: State, d: string, m: Message)
    requires d in s.nodes
  {
    Count(s.nodes[d].reg.accepted, m) == FannedCount(s.nodes[d].reg.fanned, m) + WaitingCount(s.jobs, d, m)
  }

  lemma CountSnoc(ms: seq<Message>, k: Message, m: Message)
    ensures Count(ms + [k], m) == Count(ms, m) + if k == m then 1 else 0
  {
    assert (ms + [k])[..|ms|] == ms;
  }

  lemma FannedSnoc(fanned: seq<FanEvent>, e: FanEvent, m: Message)
    ensures FannedCount(fanned + [e], m) == FannedCount(fanned, m) + if e.msg == m then 1 else 0
  {
    assert (fanned + [e])[..|fanned|] == fanned;
  }

  lemma WaitingSnoc(jobs: seq<Job>, j: Job, d: string, m: Message)
    ensures WaitingCount(jobs + [j], d, m) == WaitingCount(jobs, d, m) + WaitingOne(j, d, m)
  {
    assert (jobs + [j])[..|jobs|] == jobs;
  }

  lemma {:induction false} WaitingUpdate(jobs: seq<Job>, i: nat, j: Job, d: string, m: Message)
    requires i < |jobs|
    ensures WaitingCount(jobs[i := j], d, m) + WaitingOne(jobs[i], d, m)
         == WaitingCount(jobs, d, m) + WaitingOne(j, d, m)
    decreases |jobs|
  {
    var n := |jobs| - 1;
    if i < n {
      WaitingUpdate(jobs[..n], i, j, d, m);
      assert jobs[i := j][..n] == jobs[..n][i := j];
    } else {
      assert jobs[i := j][..n] == jobs[..n];
    }
  }

  lemma {:induction false} WaitingRemove(jobs: seq<Job>, i: nat, d: string, m: Message)
    requires i < |jobs|
    ensures WaitingCount(RemoveAt(jobs, i), d, m) + WaitingOne(jobs[i], d, m) == WaitingCount(jobs, d, m)
    decreases |jobs|
  {
    var n := |jobs| - 1;
    if i < n {
      WaitingRemove(jobs[..n], i, d, m);
      assert RemoveAt(jobs, i) == RemoveAt(jobs[..n], i) + [jobs[n]];
      WaitingSnoc(RemoveAt(jobs[..n], i), jobs[n], d, m);
    } else {
      assert RemoveAt(jobs, i) == jobs[..n];
    }
  }

  lemma ReceiveRregBalanced(s: State, from: string, to: string, t: string, reg: TypeReg, d: string, m: Message)
    requires d in s.nodes && Balanced(s, d, m) && to in s.nodes
    ensures Balanced(Receive(s, from, to, Rreg(t, reg)), d, m)
  {
    hide ApplyRemote, Count, FannedCount;
    var s' := Receive(s, from, to, Rreg(t, reg));
    if s'.jobs != s.jobs {
      var effective := ApplyRemote(s.nodes[to].reg.types, t, reg).0;
      WaitingSnoc(s.jobs, Job(to, Rreg(t, effective.value), Some(from), true), d, m);
    }
  }

  lemma ReceiveFeedBalanced(s: State, from: string, to: string, k: Message, d: string, m: Message)
    requires d in s.nodes && Balanced(s, d, m) && to in s.nodes
    ensures Balanced(Receive(s, from, to, Feed(k)), d, m)
  {
    hide BodySize, Insert, Count, FannedCount, WaitingCount;
    var r := s.nodes[to].reg;
    if BodySize(k.body) <= s.nodes[to].maxBytes && Accept(r, k).0 {
      WaitingSnoc(s.jobs, Job(to, Feed(k), Some(from), false), d, m);
      CountSnoc(r.accepted, k, m);
    }
  }

  lemma ReceiveBalanced(s: State, from: string, to: string, f: Frame, d: string, m: Message)
    requires d in s.nodes && Balanced(s, d, m) && to in s.nodes
    ensures Balanced(Receive(s, from, to, f), d, m)
  {
    hide Balanced, Receive;
    match f
    case Rreg(t, reg) => ReceiveRregBalanced(s, from, to, t, reg, d, m);
    case Feed(k) => ReceiveFeedBalanced(s, from, to, k, d, m);
  }

  lemma PublishBalanced(s: State, at: string, t: string, key: string, body: seq<string>, d: string, m: Message)
    requires d in s.nodes && Balanced(s, d, m) && MessagesOk(s) && at in s.nodes
    ensures Balanced(PublishAt(s, at, t, key, body), d, m)
  {
    var r := s.nodes[at].reg;
    if Authorize(r.types, t, key) == Authorized {
      var k := NextMessage(r, t, body);
      PublishEffect(s, at, t, key, body);
      CountSnoc(r.accepted, k, m);
      FannedSnoc(r.fanned, FanEvent(k, Listeners(r.subs, t)), m);
      WaitingSnoc(s.jobs, Job(at, Feed(k), None, true), d, m);
    }
  }

  lemma FanBalanced(s: State, i: nat, d: string, m: Message)
    requires d in s.nodes && Balanced(s, d, m) && Enabled(s, FanJob(i))
    ensures Balanced(FanAt(s, i), d, m)
  {
    var j := s.jobs[i];
    var r := s.nodes[j.at].reg;
    FannedSnoc(r.fanned, FanEvent(j.frame.msg, Listeners(r.subs, j.frame.msg.typeName)), m);
    WaitingUpdate(s.jobs, i, j.(fanned := true), d, m);
  }

  lemma StepBalanced(s: State, step: Step, d: string, m: Message)
    requires d in s.nodes && Balanced(s, d, m) && MessagesOk(s) && Enabled(s, step)
    ensures d in Next(s, step).nodes && Balanced(Next(s, step), d, m)
  {
    hide Balanced, MessagesOk;
    if step.Publish? {
      PublishBalanced(s, step.d, step.t, step.key, step.body, d, m);
    } else if step.FanJob? {
      FanBalanced(s, step.i, d, m);
    } else if step.Deliver? {
      DeliverBalanced(s, step.e, d, m);
    } else if step.DeliverStale? {
      DeliverStaleBalanced(s, step.i, d, m);
    } else if step.SendJob? {
      SendBalanced(s, step.i, d, m);
    } else if step.Register? {
      RegisterBalanced(s, step.d, step.t, step.key, step.now, d, m);
    } else {
      OtherBalanced(s, step, d, m);
    }
  }

  lemma DeliverBalanced(s: State, e: Edge, d: string, m: Message)
    requires d in s.nodes && Balanced(s, d, m) && MessagesOk(s) && Enabled(s, Deliver(e))
    ensures d in Next(s, Deliver(e)).nodes && Balanced(Next(s, Deliver(e)), d, m)
  {
    ReceiveBalanced(Unwire(s, e), e.src, e.dst, s.links[e].wire[0], d, m);
  }

  lemma DeliverStaleBalanced(s: State, i: nat, d: string, m: Message)
    requires d in s.nodes && Balanced(s, d, m) && MessagesOk(s) && Enabled(s, DeliverStale(i))
    ensures d in Next(s, DeliverStale(i)).nodes && Balanced(Next(s, DeliverStale(i)), d, m)
  {
    var p := s.stale[i];
    ReceiveBalanced(Unstale(s, i), p.src, p.dst, p.frame, d, m);
  }

  lemma OtherBalanced(s: State, step: Step, d: string, m: Message)
    requires d in s.nodes && Balanced(s, d, m) && Enabled(s, step)
    requires step.Client? || step.Install? || step.Snapshot? || step.Push? || step.Write?
             || step.Down? || step.LoseStale?
    ensures d in Next(s, step).nodes && Balanced(Next(s, step), d, m)
  {
    var s' := Next(s, step);
    assert s'.jobs == s.jobs;
    assert s'.nodes[d].reg.accepted == s.nodes[d].reg.accepted;
    assert s'.nodes[d].reg.fanned == s.nodes[d].reg.fanned;
  }

  lemma SendBalanced(s: State, i: nat, d: string, m: Message)
    requires d in s.nodes && Balanced(s, d, m) && Enabled(s, SendJob(i))
    ensures Balanced(SendAt(s, i), d, m)
  {
    WaitingRemove(s.jobs, i, d, m);
  }

  lemma RegisterBalanced(s: State, at: string, t: string, key: string, now: nat, d: string, m: Message)
    requires d in s.nodes && Balanced(s, d, m) && at in s.nodes
    ensures Balanced(RegisterAt(s, at, t, key, now), d, m)
  {
    if t !in s.nodes[at].reg.types {
      WaitingSnoc(s.jobs, Job(at, Rreg(t, TypeReg(key, s.nodes[at].reg.id, now)), None, true), d, m);
    }
  }

  // --- the origin accepts what it publishes ------------------------------------------------------

  ghost predicate OriginsKnow(s: State)
  {
    forall m :: m in s.published ==> Knows(s, m.origin, Feed(m))
  }

  lemma OriginsGrow(s: State, s': State)
    requires OriginsKnow(s) && Grows(s, s') && s'.published == s.published
    ensures OriginsKnow(s')
  {
    forall m | m in s'.published ensures Knows(s', m.origin, Feed(m)) {
      KnowsGrows(s, s', m.origin, Feed(m));
    }
  }

  lemma PublishOrigins(s: State, d: string, t: string, key: string, body: seq<string>)
    requires OriginsKnow(s) && MessagesOk(s) && d in s.nodes
    ensures OriginsKnow(PublishAt(s, d, t, key, body))
  {
    var s', r := PublishAt(s, d, t, key, body), s.nodes[d].reg;
    if Authorize(r.types, t, key) == Authorized {
      assert Grows(s, s') by { StepGrows(s, Publish(d, t, key, body)); }
      PublishEffect(s, d, t, key, body);
      assert DaemonOk(s, d);
      forall m | m in s'.published ensures Knows(s', m.origin, Feed(m)) {
        if m in s.published {
          KnowsGrows(s, s', m.origin, Feed(m));
        }
      }
    }
  }

  lemma OnlyPublishPublishes(s: State, step: Step)
    requires Enabled(s, step) && !step.Publish?
    ensures Next(s, step).published == s.published
  {
    hide ApplyRemote, Accept, FanOut, Cluster.Broadcast, Enqueue, Parcels;
  }

  lemma StepOrigins(s: State, step: Step)
    requires OriginsKnow(s) && MessagesOk(s) && Enabled(s, step)
    ensures OriginsKnow(Next(s, step))
  {
    hide OriginsKnow, MessagesOk;
    if step.Publish? {
      PublishOrigins(s, step.d, step.t, step.key, step.body);
    } else {
      hide Next, Enabled;
      OnlyPublishPublishes(s, step);
      StepGrows(s, step);
      OriginsGrow(s, Next(s, step));
    }
  }

  // --- at most once ---------------------------------------------------------------------------------

  ghost predicate Distinct<T>(xs: seq<T>)
  {
    forall i, j :: 0 <= i < j < |xs| ==> xs[i] != xs[j]
  }

  lemma {:induction false} DistinctFits<T>(xs: seq<T>, all: set<T>)
    requires Distinct(xs) && forall x :: x in xs ==> x in all
    ensures |xs| <= |all|
  {
    if xs == [] {
    } else {
      var n := |xs| - 1;
      forall x | x in xs[..n] ensures x in all - {xs[n]} {
        assert x in xs;
      }
      DistinctFits(xs[..n], all - {xs[n]});
    }
  }

  lemma {:induction false} DistinctCount(ms: seq<Message>, m: Message)
    requires Distinct(ms)
    ensures Count(ms, m) == if m in ms then 1 else 0
  {
    if ms == [] {
    } else {
      var n := |ms| - 1;
      DistinctCount(ms[..n], m);
      assert ms == ms[..n] + [ms[n]];
    }
  }

  /** The window of `d` has not evicted anything. */
  ghost predicate Unevicted(s: State, d: string)
    requires d in s.nodes
  {
    |s.nodes[d].reg.accepted| <= s.nodes[d].reg.seen.cap
  }

  /** While the window of `d` has evicted nothing, what `d` accepted it recognizes as a duplicate. */
  lemma KnownIsDuplicate(s: State, d: string, m: Message)
    requires MessagesOk(s) && Knows(s, d, Feed(m)) && Unevicted(s, d)
    ensures m.msgId in s.nodes[d].reg.seen.order
  {
    var r := s.nodes[d].reg;
    assert DaemonOk(s, d);
    var i :| 0 <= i < |r.accepted| && r.accepted[i] == m;
    assert MsgIds(r.accepted)[i] == m.msgId;
  }

  /** No window can evict anything while it holds as many ids as messages were published. */
  lemma RoomIsEnough(s: State, d: string)
    requires MessagesOk(s) && d in s.nodes && |s.published| <= s.nodes[d].reg.seen.cap
    ensures Unevicted(s, d)
  {
    hide Spaced;
    assert DaemonOk(s, d);
    SpacedFits(s.nodes[d].reg.accepted, s.nodes[d].reg.seen.cap, s.published);
  }

  lemma SpacedFits(acc: seq<Message>, cap: nat, all: set<Message>)
    requires Spaced(MsgIds(acc), cap) && (forall m :: m in acc ==> m in all) && |all| <= cap
    ensures |acc| <= cap
  {
    hide Spaced;
    if |acc| > cap {
      var part := acc[0..cap + 1];
      SpacedPart(acc, cap, 0);
      assert forall m :: m in part ==> m in acc;
      DistinctFits(part, all);
    }
  }

  lemma SpacedPart(acc: seq<Message>, cap: nat, i: nat)
    requires Spaced(MsgIds(acc), cap) && i + cap + 1 <= |acc|
    ensures Distinct(acc[i..i + cap + 1])
  {
    var part := acc[i..i + cap + 1];
    forall k, l | 0 <= k < l < |part| ensures part[k] != part[l] {
      assert MsgIds(acc)[i + k] != MsgIds(acc)[i + l];
    }
  }

  /** Where `m` occurs last. */
  lemma {:induction false} LastOccurrence(ms: seq<Message>, m: Message) returns (j: nat)
    requires Count(ms, m) > 0
    ensures j < |ms| && ms[j] == m && Count(ms[..j + 1], m) == Count(ms, m)
    decreases |ms|
  {
    var n := |ms| - 1;
    if ms[n] == m {
      j := n;
      assert ms[..n + 1] == ms;
    } else {
      j := LastOccurrence(ms[..n], m);
      assert ms[..n][..j + 1] == ms[..j + 1];
    }
  }

  lemma MulAtLeast(k: nat, per: nat)
    requires k >= 1
    ensures k * per >= per
  {
    assert k * per == per + (k - 1) * per;
  }

  /** Fewer than two occurrences fit in one period. */
  lemma OnceFits(n: nat, per: nat, len: nat)
    requires (n == 0 || (n - 1) * per < len) && len <= per
    ensures n <= 1
  {
    if n >= 2 {
      MulAtLeast(n - 1, per);
    }
  }

  lemma FewerFit(n: nat, k: nat, per: nat, len: nat)
    requires 1 <= n <= k && (k - 1) * per < len
    ensures (n - 1) * per < len
  {
    assert (k - 1) * per == (n - 1) * per + (k - n) * per;
  }

  lemma OneMorePeriod(n: nat, per: nat, j: nat, k: nat)
    requires n >= 1 && (n - 1) * per < j + 1 && k - j >= per
    ensures n * per < k + 1
  {
    assert n * per == (n - 1) * per + per;
  }

  /** Occurrences of one message in a spaced history are few: each but the first takes `cap` others. */
  lemma {:induction false} SpacedCount(ms: seq<Message>, cap: nat, m: Message)
    requires Spaced(MsgIds(ms), cap)
    ensures Count(ms, m) == 0 || (Count(ms, m) - 1) * (cap + 1) < |ms|
    decreases |ms|
  {
    hide Spaced, Count;
    if Count(ms, m) > 0 {
      var k := LastOccurrence(ms, m);
      CountSnoc(ms[..k], m, m);
      assert ms[..k] + [m] == ms[..k + 1];
      if Count(ms[..k], m) > 0 {
        var j := LastOccurrence(ms[..k], m);
        assert ms[..k][..j + 1] == ms[..j + 1];
        SpacedApart(ms, cap, j, k);
        SpacedPrefix(ms, cap, j + 1);
        SpacedCount(ms[..j + 1], cap, m);
        OneMorePeriod(Count(ms[..k], m), cap + 1, j, k);
      }
    }
  }

  lemma SpacedApart(ms: seq<Message>, cap: nat, j: nat, k: nat)
    requires Spaced(MsgIds(ms), cap) && j < k < |ms| && ms[j] == ms[k]
    ensures k - j > cap
  {
    assert MsgIds(ms)[j] == MsgIds(ms)[k];
  }

  lemma SpacedPrefix(ms: seq<Message>, cap: nat, n: nat)
    requires Spaced(MsgIds(ms), cap) && n <= |ms|
    ensures Spaced(MsgIds(ms[..n]), cap)
  {
    assert forall i :: 0 <= i < n ==> MsgIds(ms[..n])[i] == MsgIds(ms)[i];
  }

  /** Until the window of `d` has evicted something, nothing is accepted twice. */
  lemma AcceptedOnce(s: State, d: string)
    requires MessagesOk(s) && d in s.nodes && Unevicted(s, d)
    ensures Distinct(s.nodes[d].reg.accepted)
  {
    assert DaemonOk(s, d);
    var acc := s.nodes[d].reg.accepted;
    var ids := MsgIds(acc);
    assert forall i, j :: 0 <= i < j < |ids| ==> ids[i] != ids[j];
    assert forall i :: 0 <= i < |acc| ==> ids[i] == acc[i].msgId;
  }

  /** In every run the acceptances of one message at one daemon have at least `cap` others between
      them, for any window and any number of messages. */
  lemma AcceptancesAreSpaced(run: seq<State>, steps: seq<Step>, i: nat, d: string, a: nat, b: nat)
    requires IsRun(run, steps) && ProperStart(run[0]) && i < |run| && d in run[i].nodes
    requires a < b < |run[i].nodes[d].reg.accepted|
    requires run[i].nodes[d].reg.accepted[a] == run[i].nodes[d].reg.accepted[b]
    ensures b - a > run[i].nodes[d].reg.seen.cap
  {
    Always(run, steps, i);
    assert DaemonOk(run[i], d);
    var ids := MsgIds(run[i].nodes[d].reg.accepted);
    assert ids[a] == ids[b];
  }

  ghost predicate HeardBy(fanned: seq<FanEvent>, m: Message, c: nat)
  {
    exists e :: e in fanned && e.msg == m && c in e.listeners
  }

  /** A connection's share of one fanned-out message. */
  lemma {:induction false} HeardCount(fanned: seq<FanEvent>, m: Message, c: nat)
    requires FannedCount(fanned, m) <= 1
    ensures Count(Heard(fanned, c), m) == if HeardBy(fanned, m, c) then 1 else 0
    ensures FannedCount(fanned, m) == 0 ==> !HeardBy(fanned, m, c)
  {
    if fanned == [] {
    } else {
      var init, last := fanned[..|fanned| - 1], fanned[|fanned| - 1];
      HeardCount(init, m, c);
      assert fanned == init + [last];
      if c in last.listeners {
        CountSnoc(Heard(init, c), last.msg, m);
      } else {
        assert Heard(fanned, c) == Heard(init, c);
      }
      assert HeardBy(fanned, m, c) <==> HeardBy(init, m, c) || (last.msg == m && c in last.listeners) by {
        if HeardBy(init, m, c) {
          var e :| e in init && e.msg == m && c in e.listeners;
          assert e in fanned;
        }
        if last.msg == m && c in last.listeners {
          assert last in fanned;
        }
      }
    }
  }

  // --- over whole runs ------------------------------------------------------------------------------

  lemma FloodStarts(s: State, d: string, m: Message)
    requires Init(s) && d in s.nodes
    ensures OriginsKnow(s) && Balanced(s, d, m)
  {
  }

  lemma {:induction false} FloodAlways(run: seq<State>, steps: seq<Step>, i: nat, d: string, m: Message)
    requires IsRun(run, steps) && ProperStart(run[0]) && i < |run| && d in run[0].nodes
    ensures OriginsKnow(run[i]) && d in run[i].nodes && Balanced(run[i], d, m)
  {
    if i == 0 {
      FloodStarts(run[0], d, m);
    } else {
      hide Init, Enabled, Next, OriginsKnow, Balanced, MessagesOk, InFlightOk, Covered, ClaimsOk;
      FloodAlways(run, steps, i - 1, d, m);
      Always(run, steps, i - 1);
      assert Enabled(run[i - 1], steps[i - 1]) && run[i - 1 + 1] == Next(run[i - 1], steps[i - 1]);
      StepOrigins(run[i - 1], steps[i - 1]);
      StepBalanced(run[i - 1], steps[i - 1], d, m);
    }
  }

  lemma {:induction false} SameDaemons(run: seq<State>, steps: seq<Step>, i: nat)
    requires IsRun(run, steps) && i < |run|
    ensures run[i].nodes.Keys == run[0].nodes.Keys
  {
    if i == 0 {
    } else {
      SameDaemons(run, steps, i - 1);
      assert Enabled(run[i - 1], steps[i - 1]) && run[i - 1 + 1] == Next(run[i - 1], steps[i - 1]);
      StepGrows(run[i - 1], steps[i - 1]);
    }
  }

  lemma {:induction false} HeardAtMost(fanned: seq<FanEvent>, m: Message, c: nat)
    ensures Count(Heard(fanned, c), m) <= FannedCount(fanned, m)
  {
    if fanned == [] {
    } else {
      var init, last := fanned[..|fanned| - 1], fanned[|fanned| - 1];
      HeardAtMost(init, m, c);
      if c in last.listeners {
        CountSnoc(Heard(init, c), last.msg, m);
      } else {
        assert Heard(fanned, c) == Heard(init, c);
      }
    }
  }

  /** In every state of every run, whatever the window: a connection is offered a message no more often
      than its daemon accepted it, and each time but the first cost `cap` other acceptances. */
  lemma OfferedRarely(run: seq<State>, steps: seq<Step>, i: nat, d: string, c: nat, m: Message)
    requires IsRun(run, steps) && ProperStart(run[0]) && i < |run|
    requires d in run[i].nodes && c in run[i].nodes[d].reg.conns
    ensures var r := run[i].nodes[d].reg; var n := Count(r.conns[c].offered, m);
            n <= Count(r.accepted, m) && (n == 0 || (n - 1) * (r.seen.cap + 1) < |r.accepted|)
  {
    hide IsRun, ProperStart, Count, FannedCount, WaitingCount, Heard, Conserved, Spaced, Coverage.Covered, InFlightOk;
    var s, r := run[i], run[i].nodes[d].reg;
    Always(run, steps, i);
    SameDaemonsAt(run, steps, i);
    FloodAlways(run, steps, i, d, m);
    ClientsAlways(run, steps, i);
    assert DaemonOk(s, d) && QueueOk(r, c);
    HeardAtMost(r.fanned, m, c);
    SpacedCount(r.accepted, r.seen.cap, m);
    if Count(r.conns[c].offered, m) > 0 {
      FewerFit(Count(r.conns[c].offered, m), Count(r.accepted, m), r.seen.cap + 1, |r.accepted|);
    }
  }

  lemma SameDaemonsAt(run: seq<State>, steps: seq<Step>, i: nat)
    requires IsRun(run, steps) && i < |run|
    ensures run != [] && run[i].nodes.Keys == run[0].nodes.Keys
  {
    SameDaemons(run, steps, i);
  }

  /** Hence at most once, until the daemon has accepted two more messages than its window holds. */
  lemma OfferedAtMostOnce(run: seq<State>, steps: seq<Step>, i: nat, d: string, c: nat, m: Message)
    requires IsRun(run, steps) && ProperStart(run[0]) && i < |run|
    requires d in run[i].nodes && c in run[i].nodes[d].reg.conns
    requires |run[i].nodes[d].reg.accepted| <= run[i].nodes[d].reg.seen.cap + 1
    ensures Count(run[i].nodes[d].reg.conns[c].offered, m) <= 1
  {
    hide IsRun, ProperStart, Count;
    OfferedRarely(run, steps, i, d, c, m);
    var r := run[i].nodes[d].reg;
    OnceFits(Count(r.conns[c].offered, m), r.seen.cap + 1, |r.accepted|);
  }

  // --- flooding along a path -------------------------------------------------------------------------------

  /** `e` is up, was up before its sender accepted `m`, did not refuse `m`, has nothing of it left to
      bring, and leads to a daemon whose limit admits `m`. */
  ghost predicate FloodHop(s: State, m: Message, e: Edge)
  {
    && e in s.links && e.src in s.nodes && e.dst in s.nodes
    && Feed(m) !in s.links[e].refused && !InTransit(s, e, Feed(m))
    && (forall i :: 0 <= i < |s.nodes[e.src].reg.accepted| && s.nodes[e.src].reg.accepted[i] == m ==>
          i >= s.links[e].since)
    && BodySize(m.body) <= s.nodes[e.dst].maxBytes
  }

  ghost predicate IsFloodPath(s: State, m: Message, path: seq<string>)
  {
    && path != [] && forall k :: 0 <= k < |path| - 1 ==> FloodHop(s, m, Hop(path, k))
  }

  lemma HopSpreads(s: State, m: Message, e: Edge)
    requires Inv(s) && FloodHop(s, m, e) && Knows(s, e.src, Feed(m))
    ensures Knows(s, e.dst, Feed(m))
  {
    assert LinkCovered(s, e);
    var i :| 0 <= i < |s.nodes[e.src].reg.accepted| && s.nodes[e.src].reg.accepted[i] == m;
    assert Due(s, e, Feed(m));
  }

  lemma {:induction false} SpreadsAlong(s: State, m: Message, path: seq<string>)
    requires Inv(s) && IsFloodPath(s, m, path) && Knows(s, path[0], Feed(m))
    ensures Knows(s, path[|path| - 1], Feed(m))
    decreases |path|
  {
    hide Inv, FloodHop, Knows;
    if |path| > 1 {
      assert FloodHop(s, m, Hop(path, 0));
      HopSpreads(s, m, Hop(path, 0));
      forall k | 0 <= k < |path| - 2 ensures FloodHop(s, m, Hop(path[1..], k)) {
        assert FloodHop(s, m, Hop(path, k + 1));
      }
      SpreadsAlong(s, m, path[1..]);
    }
  }

  /** `m` was accepted once and fanned out once at `d`; each connection subscribed at that
      moment was offered it exactly once, and no other connection ever was. */
  ghost predicate DeliveredOnceAt(r: RegState, m: Message)
  {
    && Count(r.accepted, m) == 1
    && FannedCount(r.fanned, m) == 1
    && forall c :: c in r.conns ==> Count(r.conns[c].offered, m) == if HeardBy(r.fanned, m, c) then 1 else 0
  }

  /** Nothing waits at `d` to be fanned out. */
  ghost predicate NoneWaits(jobs: seq<Job>, d: string, m: Message)
  {
    forall j :: j in jobs && j.at == d && j.frame == Feed(m) ==> j.fanned
  }

  lemma {:induction false} NothingWaits(jobs: seq<Job>, d: string, m: Message)
    requires NoneWaits(jobs, d, m)
    ensures WaitingCount(jobs, d, m) == 0
  {
    if jobs == [] {
    } else {
      assert NoneWaits(jobs[..|jobs| - 1], d, m);
      NothingWaits(jobs[..|jobs| - 1], d, m);
      assert jobs[|jobs| - 1] in jobs;
    }
  }

  lemma AcceptedTwiceNeedsMore(s: State, d: string, m: Message)
    requires MessagesOk(s) && Knows(s, d, Feed(m))
    requires |s.nodes[d].reg.accepted| <= s.nodes[d].reg.seen.cap + 1
    ensures Count(s.nodes[d].reg.accepted, m) == 1
  {
    hide Spaced, Count, AllNumbered, IdsUnique, Last;
    var r := s.nodes[d].reg;
    assert DaemonOk(s, d);
    SpacedCount(r.accepted, r.seen.cap, m);
    CountPositive(r.accepted, m);
    OnceFits(Count(r.accepted, m), r.seen.cap + 1, |r.accepted|);
  }

  lemma {:induction false} CountPositive(ms: seq<Message>, m: Message)
    requires m in ms
    ensures Count(ms, m) > 0
  {
    var n := |ms| - 1;
    if ms[n] != m {
      assert m in ms[..n];
      CountPositive(ms[..n], m);
    }
  }

  /** In every run: once nothing carries a published message any more along some path of links from its
      origin to `d`, each of them up since before its sender accepted the message and leading to a
      daemon that admits its size, `d` has accepted it exactly once and offered it exactly once to each
      connection subscribed there at the moment of fan-out.  Nothing is asked of the rest of the cluster. */
  lemma FloodComplete(run: seq<State>, steps: seq<Step>, m: Message, path: seq<string>)
    requires IsRun(run, steps) && ProperStart(run[0]) && m in run[|steps|].published
    requires IsFloodPath(run[|steps|], m, path) && path[0] == m.origin
    requires path[|path| - 1] in run[|steps|].nodes && NoneWaits(run[|steps|].jobs, path[|path| - 1], m)
    requires var r := run[|steps|].nodes[path[|path| - 1]].reg; |r.accepted| <= r.seen.cap + 1
    ensures DeliveredOnceAt(run[|steps|].nodes[path[|path| - 1]].reg, m)
  {
    hide Init, Enabled, Next, Count, FannedCount, WaitingCount, HeardBy, FloodHop, NoneWaits, AllClientsOk;
    var s, d := run[|steps|], path[|path| - 1];
    Always(run, steps, |steps|);
    SameDaemonsAt(run, steps, |steps|);
    FloodAlways(run, steps, |steps|, d, m);
    ClientsAlways(run, steps, |steps|);
    SpreadsAlong(s, m, path);
    AcceptedTwiceNeedsMore(s, d, m);
    NothingWaits(s.jobs, d, m);
    OfferedAsHeard(s, d, m);
  }

  lemma OfferedAsHeard(s: State, d: string, m: Message)
    requires d in s.nodes && AllClientsOk(s) && FannedCount(s.nodes[d].reg.fanned, m) <= 1
    ensures var r := s.nodes[d].reg;
            forall c :: c in r.conns ==> Count(r.conns[c].offered, m) == if HeardBy(r.fanned, m, c) then 1 else 0
  {
    hide Count, FannedCount, HeardBy;
    var r := s.nodes[d].reg;
    forall c | c in r.conns ensures Count(r.conns[c].offered, m) == if HeardBy(r.fanned, m, c) then 1 else 0 {
      assert QueueOk(r, c);
      HeardCount(r.fanned, m, c);
    }
  }
}
