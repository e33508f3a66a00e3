/** Propagation comes to rest: with no new REGISTER or PUBLISH and stable links, every sequence
    of federation steps is finite, and where it ends nothing is in flight. */
module Termination {
  import opened Messages
  import opened Ownership
  import opened Cluster
  import opened Invariants
  import opened Convergence
  import opened Flooding

  predicate IsPropagation(step: Step)
  {
    step.FanJob? || step.SendJob? || step.Snapshot? || step.Push? || step.Write?
    || step.Deliver? || step.DeliverStale? || step.LoseStale?
  }

  /** No window can have evicted an id: fewer messages were published than each holds. */
  ghost predicate Roomy(s: State)
  {
    forall d :: d in s.nodes ==> |s.published| <= s.nodes[d].reg.seen.cap
  }

  // --- news: what some daemon has not learned yet ----------------------------------------------

  datatype News = News(d: string, f: Frame)

  function AllFrames(s: State): set<Frame>
  {
    (set m | m in s.published :: Feed(m)) + (set c | c in s.registered :: Rreg(c.typeName, c.reg))
  }

  ghost function Unlearned(s: State): set<News>
  {
    set d, f | d in s.nodes.Keys && f in AllFrames(s) && !Knows(s, d, f) :: News(d, f)
  }

  lemma SmallerSet<T>(a: set<T>, b: set<T>)
    requires a <= b
    ensures |a| <= |b|
    ensures a != b ==> |a| < |b|
  {
    assert b == a + (b - a) && a !! (b - a);
  }

  lemma GenuineIsFrame(s: State, f: Frame)
    ensures Genuine(s, f) <==> f in AllFrames(s)
  {
    if f.Rreg? && Genuine(s, f) {
      var c := Claim(f.typeName, f.reg);
      assert Rreg(c.typeName, c.reg) == f;
    }
  }

  lemma UnlearnedShrinks(s: State, s': State)
    requires Grows(s, s') && s'.published == s.published && s'.registered == s.registered
    ensures Unlearned(s') <= Unlearned(s) && |Unlearned(s')| <= |Unlearned(s)|
  {
    forall n | n in Unlearned(s') ensures n in Unlearned(s) {
      if Knows(s, n.d, n.f) {
        KnowsGrows(s, s', n.d, n.f);
      }
    }
    SmallerSet(Unlearned(s'), Unlearned(s));
  }

  lemma LearningShrinks(s: State, s': State, d: string, f: Frame)
    requires Grows(s, s') && s'.published == s.published && s'.registered == s.registered
    requires d in s.nodes && Genuine(s, f) && !Knows(s, d, f) && Knows(s', d, f)
    ensures |Unlearned(s')| < |Unlearned(s)|
  {
    UnlearnedShrinks(s, s');
    GenuineIsFrame(s, f);
    assert News(d, f) in Unlearned(s) && News(d, f) !in Unlearned(s');
    SmallerSet(Unlearned(s'), Unlearned(s));
  }

  /** Receiving a frame either changes nothing or teaches one daemon something and adds one job. */
  lemma ReceiveTeaches(s: State, from: string, to: string, f: Frame)
    requires MessagesOk(s) && Roomy(s) && to in s.nodes && Genuine(s, f)
    ensures var s' := Receive(s, from, to, f);
            || s' == s
            || (|s'.jobs| == |s.jobs| + 1 && s'.jobs[..|s.jobs|] == s.jobs
                && s'.links == s.links && s'.stale == s.stale && |Unlearned(s')| < |Unlearned(s)|)
  {
    hide Unlearned, MessagesOk;
    var s' := Receive(s, from, to, f);
    if Knows(s, to, f) {
      if f.Feed? {
        RoomIsEnough(s, to);
        KnownIsDuplicate(s, to, f.msg);
      } else {
        ApplyDescends(s.nodes[to].reg.types, f.typeName, f.reg);
      }
      assert s' == s;
    } else if f.Feed? && BodySize(f.msg.body) > s.nodes[to].maxBytes {
    } else {
      if f.Feed? && f.msg.msgId in s.nodes[to].reg.seen.order {
        DuplicateWasAccepted(s, to, f.msg);
      }
      ReceiveLearns(s, from, to, f);
      ReceiveGrows(s, from, to, f);
      LearningShrinks(s, s', to, f);
    }
  }

  lemma ReceiveLearns(s: State, from: string, to: string, f: Frame)
    requires to in s.nodes && !Knows(s, to, f)
    requires f.Feed? ==> f.msg.msgId !in s.nodes[to].reg.seen.order && BodySize(f.msg.body) <= s.nodes[to].maxBytes
    ensures Knows(Receive(s, from, to, f), to, f) && |Receive(s, from, to, f).jobs| == |s.jobs| + 1
  {
    if f.Rreg? {
      ApplyDescends(s.nodes[to].reg.types, f.typeName, f.reg);
    }
  }

  // --- the measure --------------------------------------------------------------------------------

  /** Steps a link's frames still need: snapshot record to queue to wire to the far end. */
  function LinkWeight(l: Link, claims: nat): nat
  {
    (if l.read then 0 else 3 * claims + 1) + 3 * |l.snap| + 2 * |l.queue| + |l.wire|
  }

  ghost function LinksWeight(links: map<Edge, Link>, claims: nat): nat
  {
    if links == map[] then 0
    else
      var e :| e in links;
      LinkWeight(links[e], claims) + LinksWeight(links - {e}, claims)
  }

  /** A job may put one frame, weighing two, on every link. */
  function JobWeight(j: Job, width: nat): nat
  {
    2 * width + if j.fanned then 1 else 2
  }

  function JobsWeight(jobs: seq<Job>, width: nat): nat
  {
    if jobs == [] then 0 else JobsWeight(jobs[..|jobs| - 1], width) + JobWeight(jobs[|jobs| - 1], width)
  }

  ghost function InFlightWeight(s: State): nat
  {
    LinksWeight(s.links, |s.registered|) + JobsWeight(s.jobs, |s.links|) + |s.stale|
  }

  /** Each piece of news still to be learned can cost one more job. */
  ghost function Rank(s: State): nat
  {
    |Unlearned(s)| * (2 * |s.links| + 2) + InFlightWeight(s)
  }

  lemma {:induction false} LinksWeightRemove(links: map<Edge, Link>, e: Edge, claims: nat)
    requires e in links
    ensures LinksWeight(links, claims) == LinkWeight(links[e], claims) + LinksWeight(links - {e}, claims)
    decreases |links|
  {
    var x :| x in links
             && LinksWeight(links, claims) == LinkWeight(links[x], claims) + LinksWeight(links - {x}, claims);
    if x != e {
      LinksWeightRemove(links - {x}, e, claims);
      LinksWeightRemove(links - {e}, x, claims);
      assert links - {x} - {e} == links - {e} - {x};
    }
  }

  lemma LinksWeightUpdate(links: map<Edge, Link>, e: Edge, l: Link, claims: nat)
    requires e in links
    ensures LinksWeight(links[e := l], claims) + LinkWeight(links[e], claims)
         == LinksWeight(links, claims) + LinkWeight(l, claims)
    ensures |links[e := l]| == |links|
  {
    LinksWeightRemove(links, e, claims);
    LinksWeightRemove(links[e := l], e, claims);
    assert links[e := l] - {e} == links - {e};
    assert links[e := l].Keys == links.Keys;
  }

  lemma {:induction false} LinksWeightBump(links: map<Edge, Link>, after: map<Edge, Link>, claims: nat)
    requires after.Keys == links.Keys
    requires forall e :: e in links ==> LinkWeight(after[e], claims) <= LinkWeight(links[e], claims) + 2
    ensures LinksWeight(after, claims) <= LinksWeight(links, claims) + 2 * |links|
    decreases |links|
  {
    if links == map[] {
    } else {
      var e :| e in links;
      LinksWeightRemove(links, e, claims);
      LinksWeightRemove(after, e, claims);
      LinksWeightBump(links - {e}, after - {e}, claims);
    }
  }

  lemma JobsWeightSnoc(jobs: seq<Job>, j: Job, width: nat)
    ensures JobsWeight(jobs + [j], width) == JobsWeight(jobs, width) + JobWeight(j, width)
  {
    assert (jobs + [j])[..|jobs|] == jobs;
  }

  lemma {:induction false} JobsWeightUpdate(jobs: seq<Job>, i: nat, j: Job, width: nat)
    requires i < |jobs|
    ensures JobsWeight(jobs[i := j], width) + JobWeight(jobs[i], width) == JobsWeight(jobs, width) + JobWeight(j, width)
    decreases |jobs|
  {
    var n := |jobs| - 1;
    if i < n {
      JobsWeightUpdate(jobs[..n], i, j, width);
      assert jobs[i := j][..n] == jobs[..n][i := j];
    } else {
      assert jobs[i := j][..n] == jobs[..n];
    }
  }

  lemma {:induction false} JobsWeightRemove(jobs: seq<Job>, i: nat, width: nat)
    requires i < |jobs|
    ensures JobsWeight(RemoveAt(jobs, i), width) + JobWeight(jobs[i], width) == JobsWeight(jobs, width)
    decreases |jobs|
  {
    var n := |jobs| - 1;
    if i < n {
      JobsWeightRemove(jobs[..n], i, width);
      assert RemoveAt(jobs, i) == RemoveAt(jobs[..n], i) + [jobs[n]];
      JobsWeightSnoc(RemoveAt(jobs[..n], i), jobs[n], width);
    } else {
      assert RemoveAt(jobs, i) == jobs[..n];
    }
  }

  lemma {:induction false} FewerCost(a: nat, b: nat, k: nat)
    requires a <= b
    ensures a == b ==> a * k == b * k
    ensures a < b ==> a * k + k <= b * k
  {
    if a == b {
    } else {
      FewerCost(a, b - 1, k);
      assert b * k == (b - 1) * k + k;
    }
  }

  /** Learning pays for the one job it creates. */
  lemma RankFalls(s: State, s': State)
    requires |s'.links| == |s.links|
    requires |Unlearned(s')| <= |Unlearned(s)|
    requires |Unlearned(s')| == |Unlearned(s)| ==> InFlightWeight(s') < InFlightWeight(s)
    requires |Unlearned(s')| < |Unlearned(s)| ==> InFlightWeight(s') < InFlightWeight(s) + 2 * |s.links| + 2
    ensures Rank(s') < Rank(s)
  {
    hide Unlearned, InFlightWeight;
    FewerCost(|Unlearned(s')|, |Unlearned(s)|, 2 * |s.links| + 2);
  }

  // --- every propagation step lowers it --------------------------------------------------------------

  lemma FlightFalls(s: State, s': State)
    requires Grows(s, s') && s'.published == s.published && s'.registered == s.registered
    requires |s'.links| == |s.links| && InFlightWeight(s') < InFlightWeight(s)
    ensures Rank(s') < Rank(s)
  {
    UnlearnedShrinks(s, s');
    RankFalls(s, s');
  }

  lemma FanFalls(s: State, i: nat)
    requires Enabled(s, FanJob(i))
    ensures Rank(FanAt(s, i)) < Rank(s)
  {
    StepGrows(s, FanJob(i));
    JobsWeightUpdate(s.jobs, i, s.jobs[i].(fanned := true), |s.links|);
    FlightFalls(s, FanAt(s, i));
  }

  lemma SendFalls(s: State, i: nat)
    requires Enabled(s, SendJob(i))
    ensures Rank(SendAt(s, i)) < Rank(s)
  {
    var s', j := SendAt(s, i), s.jobs[i];
    GrowsByNone(s, s');
    assert s'.links.Keys == s.links.Keys;
    assert |s'.links| == |s.links| by { assert |s'.links.Keys| == |s.links.Keys|; }
    JobsWeightRemove(s.jobs, i, |s.links|);
    LinksWeightBump(s.links, s'.links, |s.registered|);
    FlightFalls(s, s');
  }

  lemma LinkFalls(s: State, e: Edge, l: Link)
    requires e in s.links && LinkWeight(l, |s.registered|) < LinkWeight(s.links[e], |s.registered|)
    ensures Rank(s.(links := s.links[e := l])) < Rank(s)
  {
    var s' := s.(links := s.links[e := l]);
    GrowsByNone(s, s');
    LinksWeightUpdate(s.links, e, l, |s.registered|);
    FlightFalls(s, s');
  }

  lemma {:induction false} TableFits(types: Table, claims: set<Claim>)
    requires forall t :: t in types ==> Claim(t, types[t]) in claims
    ensures |types| <= |claims|
    decreases |types|
  {
    if types == map[] {
    } else {
      var t :| t in types;
      assert types.Keys == (types - {t}).Keys + {t};
      TableFits(types - {t}, claims - {Claim(t, types[t])});
    }
  }

  lemma SnapshotFalls(s: State, e: Edge, snap: seq<Frame>)
    requires EntriesClaimed(s) && InFlightOk(s) && Enabled(s, Snapshot(e, snap))
    ensures Rank(Next(s, Snapshot(e, snap))) < Rank(s)
  {
    assert LinkOk(s, e);
    var types := s.nodes[e.src].reg.types;
    forall t | t in types ensures Claim(t, types[t]) in s.registered {
      assert Claim(t, s.nodes[e.src].reg.types[t]) in s.registered;
    }
    TableFits(types, s.registered);
    LinkFalls(s, e, s.links[e].(read := true, snap := snap));
  }

  lemma ReceiveFalls(s: State, mid: State, from: string, to: string, f: Frame)
    requires MessagesOk(s) && Roomy(s) && to in s.nodes && Genuine(s, f)
    requires mid.nodes == s.nodes && mid.jobs == s.jobs
    requires mid.published == s.published && mid.registered == s.registered && |mid.links| == |s.links|
    requires InFlightWeight(mid) < InFlightWeight(s)
    ensures Rank(Receive(mid, from, to, f)) < Rank(s)
  {
    GrowsByNone(s, mid);
    assert MessagesOk(mid) by { MessagesSame(s, mid); }
    UnlearnedShrinks(s, mid);
    ReceiveTeaches(mid, from, to, f);
    var s' := Receive(mid, from, to, f);
    if s' == mid {
      RankFalls(s, mid);
    } else {
      var n := |mid.jobs|;
      assert s'.jobs == mid.jobs + [s'.jobs[n]];
      JobsWeightSnoc(mid.jobs, s'.jobs[n], |mid.links|);
      RankFalls(s, s');
    }
  }

  lemma DeliverFalls(s: State, e: Edge)
    requires MessagesOk(s) && InFlightOk(s) && Roomy(s) && Enabled(s, Deliver(e))
    ensures Rank(Next(s, Deliver(e))) < Rank(s)
  {
    var l := s.links[e];
    UnwireInFlight(s, e);
    LinksWeightUpdate(s.links, e, l.(wire := l.wire[1..]), |s.registered|);
    ReceiveFalls(s, Unwire(s, e), e.src, e.dst, l.wire[0]);
  }

  lemma StaleFalls(s: State, i: nat)
    requires i < |s.stale|
    ensures InFlightWeight(Unstale(s, i)) < InFlightWeight(s)
    ensures Rank(Unstale(s, i)) < Rank(s)
  {
    GrowsByNone(s, Unstale(s, i));
    FlightFalls(s, Unstale(s, i));
  }

  lemma PropagationFalls(s: State, step: Step)
    requires Inv(s) && Roomy(s) && Enabled(s, step) && IsPropagation(step)
    ensures Rank(Next(s, step)) < Rank(s)
  {
    hide Rank, MessagesOk, EntriesClaimed, Roomy;
    if step.FanJob? {
      FanFalls(s, step.i);
    } else if step.SendJob? {
      SendFalls(s, step.i);
    } else if step.Snapshot? {
      SnapshotFalls(s, step.e, step.snap);
    } else if step.Push? {
      LinkFalls(s, step.e, PushSnapshot(s.links[step.e]));
    } else if step.Write? {
      LinkFalls(s, step.e, Transmit(s.links[step.e]));
    } else if step.Deliver? {
      DeliverFalls(s, step.e);
    } else if step.DeliverStale? {
      var p := s.stale[step.i];
      UnstaleInFlight(s, step.i);
      StaleFalls(s, step.i);
      ReceiveFalls(s, Unstale(s, step.i), p.src, p.dst, p.frame);
    } else {
      StaleFalls(s, step.i);
    }
  }

  lemma PropagationStaysRoomy(s: State, step: Step)
    requires Roomy(s) && Enabled(s, step) && IsPropagation(step)
    ensures Roomy(Next(s, step))
  {
    hide Next, Enabled;
    StepGrows(s, step);
    OnlyPublishPublishes(s, step);
    var s' := Next(s, step);
    forall d | d in s'.nodes ensures |s'.published| <= s'.nodes[d].reg.seen.cap {
      assert RegGrows(s.nodes[d].reg, s'.nodes[d].reg);
    }
  }

  // --- what it means over runs ---------------------------------------------------------------------------

  /** From index `k` on, the run only propagates. */
  ghost predicate PropagatesFrom(run: seq<State>, steps: seq<Step>, k: nat)
  {
    IsRun(run, steps) && k <= |steps| && forall i :: k <= i < |steps| ==> IsPropagation(steps[i])
  }

  /** Propagation takes at most `Rank` steps, whatever their order. */
  lemma {:induction false} PropagationTerminates(run: seq<State>, steps: seq<Step>, k: nat, i: nat)
    requires PropagatesFrom(run, steps, k) && ProperStart(run[0]) && Roomy(run[k])
    requires k <= i <= |steps|
    ensures Roomy(run[i]) && Rank(run[i]) + (i - k) <= Rank(run[k])
    decreases i
  {
    hide Rank, Roomy, Inv, ProperStart, Enabled, Next, IsPropagation;
    if i == k {
    } else {
      PropagationTerminates(run, steps, k, i - 1);
      Always(run, steps, i - 1);
      assert Enabled(run[i - 1], steps[i - 1]) && run[i - 1 + 1] == Next(run[i - 1], steps[i - 1]);
      PropagationFalls(run[i - 1], steps[i - 1]);
      PropagationStaysRoomy(run[i - 1], steps[i - 1]);
    }
  }

  ghost predicate AtRest(s: State)
  {
    forall step :: IsPropagation(step) ==> !Enabled(s, step)
  }

  ghost predicate NothingInFlight(s: State)
  {
    && s.jobs == [] && s.stale == []
    && forall e :: e in s.links ==> LinkIdle(s.links[e])
  }

  lemma {:induction false} SnapshotExists(types: Table) returns (snap: seq<Frame>)
    ensures IsSnapshot(snap, types)
    decreases |types|
  {
    if types == map[] {
      snap := [];
    } else {
      var t :| t in types;
      assert types.Keys == (types - {t}).Keys + {t};
      var rest := SnapshotExists(types - {t});
      snap := rest + [Rreg(t, types[t])];
    }
  }

  predicate LinkIdle(l: Link)
  {
    l.read && l.snap == [] && l.queue == [] && l.wire == []
  }

  /** As long as anything is in flight, some propagation step can be taken. */
  lemma Progress(s: State) returns (step: Step)
    requires InFlightOk(s) && !NothingInFlight(s)
    ensures IsPropagation(step) && Enabled(s, step)
  {
    if s.jobs != [] {
      assert s.jobs[0] in s.jobs && JobOk(s, s.jobs[0]);
      step := if s.jobs[0].fanned then SendJob(0) else FanJob(0);
    } else if s.stale != [] {
      step := LoseStale(0);
    } else {
      var e :| e in s.links && !LinkIdle(s.links[e]);
      step := LinkProgress(s, e);
    }
  }

  lemma LinkProgress(s: State, e: Edge) returns (step: Step)
    requires InFlightOk(s) && e in s.links && !LinkIdle(s.links[e])
    ensures IsPropagation(step) && Enabled(s, step)
  {
    assert LinkOk(s, e);
    if !s.links[e].read {
      var snap := SnapshotExists(s.nodes[e.src].reg.types);
      step := Snapshot(e, snap);
    } else if s.links[e].snap != [] {
      step := Push(e);
    } else if s.links[e].queue != [] {
      step := Write(e);
    } else {
      step := Deliver(e);
    }
  }

  lemma RestIsQuiet(s: State)
    requires Inv(s) && AtRest(s)
    ensures NothingInFlight(s)
  {
    if !NothingInFlight(s) {
      var step := Progress(s);
    }
  }

  /** Left alone, the cluster comes to rest within `Rank` steps, and if links that are then up join
      all daemons, it has converged if and only if no record refused on them is missing. */
  lemma PropagationConverges(run: seq<State>, steps: seq<Step>, k: nat, via: set<Edge>)
    requires PropagatesFrom(run, steps, k) && ProperStart(run[0]) && Roomy(run[k])
    requires via <= run[|steps|].links.Keys && AtRest(run[|steps|]) && StronglyConnected(run[|steps|], via)
    ensures |steps| - k <= Rank(run[k]) && NothingInFlight(run[|steps|])
    ensures Converged(run[|steps|]) <==> RefusedSettled(run[|steps|], via)
  {
    hide Rank, Roomy, StronglyConnected, Converged, RefusedSettled;
    PropagationTerminates(run, steps, k, |steps|);
    Always(run, steps, |steps|);
    RestIsQuiet(run[|steps|]);
    assert QuietOn(run[|steps|], via);
    QuietConvergedIff(run[|steps|], via);
  }
}
