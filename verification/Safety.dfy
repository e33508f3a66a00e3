/** What holds over whole runs of the cluster: who may publish, who owns a type, and that every
    frame on a link survives the wire. */
module Safety {
  import opened Text
  import opened Messages
  import opened Lines
  import opened Framing
  import opened Ownership
  import opened SeenSets
  import opened Registries
  import opened Cluster
  import opened Invariants
  import opened Coverage
  import opened Convergence
  import Commands
  import Exchanges
  import Peering
  import Torn

  // --- publishing ---------------------------------------------------------------------------------

  /** Step `j` published `m`: at that instant the origin's table held the type under the key given,
      and the same step fanned `m` out to the connections then subscribed. */
  ghost predicate PublishedAt(run: seq<State>, steps: seq<Step>, j: nat, m: Message)
    requires |run| == |steps| + 1
  {
    && j < |steps| && steps[j].Publish? && steps[j].d == m.origin && m.origin in run[j].nodes
    && m.origin in run[j + 1].nodes
    && var r, r' := run[j].nodes[m.origin].reg, run[j + 1].nodes[m.origin].reg;
       && m.typeName in r.types && r.types[m.typeName].key == steps[j].key
       && m.typeName == steps[j].t && m.body == steps[j].body
       && r'.fanned == r.fanned + [FanEvent(m, Listeners(r.subs, m.typeName))]
  }

  lemma NewlyPublished(s: State, step: Step, m: Message)
    requires MessagesOk(s) && Enabled(s, step) && m in Next(s, step).published && m !in s.published
    ensures step.Publish? && step.d == m.origin && m.origin in s.nodes && m.origin in Next(s, step).nodes
    ensures var r, r' := s.nodes[m.origin].reg, Next(s, step).nodes[m.origin].reg;
            && m.typeName in r.types && r.types[m.typeName].key == step.key
            && m.typeName == step.t && m.body == step.body
            && r'.fanned == r.fanned + [FanEvent(m, Listeners(r.subs, m.typeName))]
  {
    if step.Publish? {
      assert DaemonOk(s, step.d);
    } else {
      NothingPublished(s, step);
    }
  }

  lemma NothingPublished(s: State, step: Step)
    requires Enabled(s, step) && !step.Publish?
    ensures Next(s, step).published == s.published
  {
  }

  /** Every published message was authorized by the origin's table at its own fan-out, whatever
      happened between the check before the body and the end of the body. */
  lemma {:induction false} PublishedWasAuthorized(run: seq<State>, steps: seq<Step>, i: nat, m: Message)
    returns (j: nat)
    requires IsRun(run, steps) && ProperStart(run[0]) && i < |run| && m in run[i].published
    ensures j < i && PublishedAt(run, steps, j, m)
    decreases i
  {
    hide MessagesOk, ClaimsOk, InFlightOk, Covered, Enabled, Next;
    assert Init(run[0]);
    Always(run, steps, i - 1);
    assert Enabled(run[i - 1], steps[i - 1]) && run[i - 1 + 1] == Next(run[i - 1], steps[i - 1]);
    if m in run[i - 1].published {
      j := PublishedWasAuthorized(run, steps, i - 1, m);
    } else {
      NewlyPublished(run[i - 1], steps[i - 1], m);
      j := i - 1;
    }
  }

  /** Only genuine messages are fanned out. */
  ghost predicate FannedOk(s: State)
  {
    forall d, e :: d in s.nodes && e in s.nodes[d].reg.fanned ==> e.msg in s.published
  }

  lemma FannedSame(s: State, s': State)
    requires FannedOk(s) && s.published <= s'.published && s'.nodes.Keys == s.nodes.Keys
    requires forall d :: d in s.nodes ==> s'.nodes[d].reg.fanned == s.nodes[d].reg.fanned
    ensures FannedOk(s')
  {
  }

  lemma FannedMore(s: State, s': State, at: string, e: FanEvent)
    requires FannedOk(s) && s.published <= s'.published && at in s.nodes && at in s'.nodes
    requires s'.nodes == s.nodes[at := s'.nodes[at]]
    requires s'.nodes[at].reg.fanned == s.nodes[at].reg.fanned + [e] && e.msg in s'.published
    ensures FannedOk(s')
  {
  }

  lemma QuietFanned(s: State, step: Step)
    requires Enabled(s, step) && !step.Publish? && !step.FanJob?
    ensures Next(s, step).nodes.Keys == s.nodes.Keys
    ensures forall d :: d in s.nodes ==> Next(s, step).nodes[d].reg.fanned == s.nodes[d].reg.fanned
  {
    if step.Deliver? {
      ReceiveFansNothing(Unwire(s, step.e), step.e.src, step.e.dst, s.links[step.e].wire[0]);
    } else if step.DeliverStale? {
      var p := s.stale[step.i];
      ReceiveFansNothing(Unstale(s, step.i), p.src, p.dst, p.frame);
    } else if step.Client? {
      ClientFansNothing(s.nodes[step.d], step.c, step.op);
    }
  }

  lemma ReceiveFansNothing(s: State, from: string, to: string, f: Frame)
    requires to in s.nodes
    ensures var s' := Receive(s, from, to, f);
            && s'.nodes.Keys == s.nodes.Keys
            && forall d :: d in s.nodes ==> s'.nodes[d].reg.fanned == s.nodes[d].reg.fanned
  {
    hide ApplyRemote, Insert;
  }

  lemma ClientFansNothing(d: Daemon, c: nat, op: ClientOp)
    requires CanDo(d, c, op)
    ensures Do(d, c, op).reg.fanned == d.reg.fanned
  {
  }

  lemma StepFanned(s: State, step: Step)
    requires FannedOk(s) && InFlightOk(s) && Enabled(s, step)
    ensures FannedOk(Next(s, step))
  {
    hide FannedOk, RegGrows;
    StepGrows(s, step);
    if step.FanJob? {
      var j := s.jobs[step.i];
      assert j in s.jobs && JobOk(s, j);
      var to := Listeners(s.nodes[j.at].reg.subs, j.frame.msg.typeName);
      FannedMore(s, Next(s, step), j.at, FanEvent(j.frame.msg, to));
    } else if step.Publish? {
      PublishFanned(s, step.d, step.t, step.key, step.body);
    } else {
      QuietFanned(s, step);
      FannedSame(s, Next(s, step));
    }
  }

  lemma PublishFanned(s: State, d: string, t: string, key: string, body: seq<string>)
    requires FannedOk(s) && d in s.nodes
    ensures FannedOk(PublishAt(s, d, t, key, body))
  {
    hide FannedOk;
    var r := s.nodes[d].reg;
    if Authorize(r.types, t, key) == Authorized {
      FannedMore(s, PublishAt(s, d, t, key, body), d, FanEvent(NextMessage(r, t, body), Listeners(r.subs, t)));
    } else {
      FannedSame(s, PublishAt(s, d, t, key, body));
    }
  }

  lemma {:induction false} FannedAlways(run: seq<State>, steps: seq<Step>, i: nat)
    requires IsRun(run, steps) && ProperStart(run[0]) && i < |run|
    ensures FannedOk(run[i])
  {
    hide Enabled, Next, MessagesOk, ClaimsOk, Covered, InFlightOk;
    if i == 0 {
    } else {
      FannedAlways(run, steps, i - 1);
      Always(run, steps, i - 1);
      assert Enabled(run[i - 1], steps[i - 1]) && run[i - 1 + 1] == Next(run[i - 1], steps[i - 1]);
      StepFanned(run[i - 1], steps[i - 1]);
    }
  }

  /** Whatever any daemon ever fans out was authorized where it was published. */
  lemma FannedWasAuthorized(run: seq<State>, steps: seq<Step>, i: nat, d: string, k: nat) returns (j: nat)
    requires IsRun(run, steps) && ProperStart(run[0]) && i < |run|
    requires d in run[i].nodes && k < |run[i].nodes[d].reg.fanned|
    ensures j < i && PublishedAt(run, steps, j, run[i].nodes[d].reg.fanned[k].msg)
  {
    hide PublishedAt, IsRun, ProperStart;
    FannedAlways(run, steps, i);
    var e := run[i].nodes[d].reg.fanned[k];
    assert e in run[i].nodes[d].reg.fanned;
    j := PublishedWasAuthorized(run, steps, i, e.msg);
  }

  // --- owning a type -------------------------------------------------------------------------------

  /** Step `j` was the origin's first REGISTER of the type, which no record at the origin forbade. */
  ghost predicate RegisteredAt(run: seq<State>, steps: seq<Step>, j: nat, c: Claim)
    requires |run| == |steps| + 1
  {
    && j < |steps| && steps[j] == Register(c.reg.origin, c.typeName, c.reg.key, c.reg.ts)
    && c.reg.origin in run[j].nodes && c.typeName !in run[j].nodes[c.reg.origin].reg.types
  }

  lemma NewlyRegistered(s: State, step: Step, c: Claim)
    requires DaemonsOk(s) && Enabled(s, step) && c in Next(s, step).registered && c !in s.registered
    ensures step == Register(c.reg.origin, c.typeName, c.reg.key, c.reg.ts)
    ensures c.reg.origin in s.nodes && c.typeName !in s.nodes[c.reg.origin].reg.types
  {
    if step.Register? {
      assert DaemonOk(s, step.d);
    } else {
      NothingRegistered(s, step);
    }
  }

  lemma NothingRegistered(s: State, step: Step)
    requires Enabled(s, step) && !step.Register?
    ensures Next(s, step).registered == s.registered
  {
  }

  lemma {:induction false} ClaimWasRegistered(run: seq<State>, steps: seq<Step>, i: nat, c: Claim) returns (j: nat)
    requires IsRun(run, steps) && ProperStart(run[0]) && i < |run| && c in run[i].registered
    ensures j < i && RegisteredAt(run, steps, j, c)
    decreases i
  {
    hide DaemonsOk, ClaimsOk, InFlightOk, Covered, Enabled, Next;
    assert Init(run[0]);
    Always(run, steps, i - 1);
    assert Enabled(run[i - 1], steps[i - 1]) && run[i - 1 + 1] == Next(run[i - 1], steps[i - 1]);
    if c in run[i - 1].registered {
      j := ClaimWasRegistered(run, steps, i - 1, c);
    } else {
      NewlyRegistered(run[i - 1], steps[i - 1], c);
      j := i - 1;
    }
  }

  /** The record for `t` anywhere: in a daemon's table, on a link, pending, or on a dead socket. */
  ghost predicate Occurs(s: State, t: string, reg: TypeReg)
  {
    || (exists d :: d in s.nodes && t in s.nodes[d].reg.types && s.nodes[d].reg.types[t] == reg)
    || (exists e :: e in s.links && Holds(s.links[e], Rreg(t, reg)))
    || (exists j :: j in s.jobs && j.frame == Rreg(t, reg))
    || (exists p :: p in s.stale && p.frame == Rreg(t, reg))
  }

  lemma OccursIsClaimed(s: State, t: string, reg: TypeReg)
    requires InFlightOk(s) && ClaimsOk(s) && Occurs(s, t, reg)
    ensures Claim(t, reg) in s.registered
  {
    if d :| d in s.nodes && t in s.nodes[d].reg.types && s.nodes[d].reg.types[t] == reg {
      assert Claim(t, s.nodes[d].reg.types[t]) in s.registered;
    } else if e :| e in s.links && Holds(s.links[e], Rreg(t, reg)) {
      assert LinkOk(s, e) && FrameOk(s, e.src, Rreg(t, reg));
    } else if j :| j in s.jobs && j.frame == Rreg(t, reg) {
      assert JobOk(s, j);
    } else {
      var p :| p in s.stale && p.frame == Rreg(t, reg);
      assert FrameOk(s, p.src, p.frame);
    }
  }

  /** In every reachable state every record, in a table or in flight, was really registered at its
      origin, and its type and origin alone determine its key and timestamp. */
  lemma OwnershipIsSound(run: seq<State>, steps: seq<Step>, i: nat, t: string, a: TypeReg, b: TypeReg) returns (j: nat)
    requires IsRun(run, steps) && ProperStart(run[0]) && i < |run|
    requires Occurs(run[i], t, a) && Occurs(run[i], t, b)
    ensures j < i && RegisteredAt(run, steps, j, Claim(t, a))
    ensures a.origin == b.origin ==> a == b
  {
    hide Occurs, IsRun, ProperStart, RegisteredAt;
    Always(run, steps, i);
    OccursIsClaimed(run[i], t, a);
    OccursIsClaimed(run[i], t, b);
    j := ClaimWasRegistered(run, steps, i, Claim(t, a));
  }

  /** From any state of a run to any later one no type disappears and every entry only gives way to an
      earlier one. */
  lemma EntriesOnlyGetEarlier(run: seq<State>, steps: seq<Step>, i: nat, j: nat, d: string, t: string)
    requires IsRun(run, steps) && i <= j < |run| && d in run[i].nodes && t in run[i].nodes[d].reg.types
    ensures d in run[j].nodes && t in run[j].nodes[d].reg.types
    ensures NoLater(run[j].nodes[d].reg.types[t], run[i].nodes[d].reg.types[t])
  {
    hide IsRun, Descends, NoLater;
    EntriesOnlyDescend(run, steps, i, j, d);
    DescendsIff(run[i].nodes[d].reg.types, run[j].nodes[d].reg.types);
  }

  lemma {:induction false} EntriesOnlyDescend(run: seq<State>, steps: seq<Step>, i: nat, j: nat, d: string)
    requires IsRun(run, steps) && i <= j < |run| && d in run[i].nodes
    ensures d in run[j].nodes && Descends(run[i].nodes[d].reg.types, run[j].nodes[d].reg.types)
    decreases j
  {
    hide Enabled, Next;
    if i == j {
      RegGrowsReflexive(run[i].nodes[d].reg);
    } else {
      EntriesOnlyDescend(run, steps, i, j - 1, d);
      assert Enabled(run[j - 1], steps[j - 1]) && run[j - 1 + 1] == Next(run[j - 1], steps[j - 1]);
      StepGrows(run[j - 1], steps[j - 1]);
      assert RegGrows(run[j - 1].nodes[d].reg, run[j].nodes[d].reg);
      DescendsChain(run[i].nodes[d].reg.types, run[j - 1].nodes[d].reg.types, run[j].nodes[d].reg.types);
    }
  }

  lemma DescendsChain(a: Table, b: Table, c: Table)
    requires Descends(a, b) && Descends(b, c)
    ensures Descends(a, c)
  {
    forall t | t in a ensures Settled(c, t, a[t]) {
      assert Settled(b, t, a[t]) && Settled(c, t, b[t]);
      AtMostTransitive(c[t], b[t], a[t]);
    }
  }

  // --- every frame survives the wire ------------------------------------------------------------------

  /** What the command parser and the body reader let through, and a clock before 2^64. */
  ghost predicate IsProper(step: Step)
  {
    && (step.Register? ==> Commands.IsValidType(step.t) && Commands.IsValidKey(step.key) && step.now < U64_LIMIT)
    && (step.Publish? ==> LfFree(step.body))
  }

  ghost predicate ClaimsFit(s: State)
  {
    forall c :: c in s.registered ==>
      Commands.IsValidType(c.typeName) && Commands.IsValidKey(c.reg.key) && c.reg.ts < U64_LIMIT
  }

  ghost predicate MessagesFit(s: State)
  {
    forall m :: m in s.published ==> IsField(m.typeName) && IsField(m.msgId) && LfFree(m.body)
  }

  ghost predicate NamesFit(s: State)
  {
    forall d :: d in s.nodes ==> IsField(d)
  }

  lemma StepClaimsFit(s: State, step: Step)
    requires ClaimsFit(s) && DaemonsOk(s) && Enabled(s, step) && IsProper(step)
    ensures ClaimsFit(Next(s, step))
  {
    hide Enabled, Next, DaemonsOk;
    forall c | c in Next(s, step).registered
      ensures Commands.IsValidType(c.typeName) && Commands.IsValidKey(c.reg.key) && c.reg.ts < U64_LIMIT
    {
      if c !in s.registered {
        NewlyRegistered(s, step, c);
      }
    }
  }

  lemma StepMessagesFit(s: State, step: Step)
    requires MessagesFit(s) && ClaimsFit(s) && ClaimsOk(s) && MessagesOk(s) && NamesFit(s)
    requires Enabled(s, step) && IsProper(step)
    ensures MessagesFit(Next(s, step))
  {
    if step.Publish? {
      assert DaemonOk(s, step.d);
      var r := s.nodes[step.d].reg;
      if Authorize(r.types, step.t, step.key) == Authorized {
        assert Claim(step.t, r.types[step.t]) in s.registered;
        Exchanges.ValidIsField(step.t);
        Exchanges.MsgIdIsField(step.d, r.nextSeq);
      }
    } else {
      NothingPublished(s, step);
    }
  }

  lemma {:induction false} FitAlways(run: seq<State>, steps: seq<Step>, i: nat)
    requires IsRun(run, steps) && ProperStart(run[0]) && NamesFit(run[0])
    requires (forall step :: step in steps ==> IsProper(step)) && i < |run|
    ensures ClaimsFit(run[i]) && MessagesFit(run[i]) && NamesFit(run[i])
  {
    hide Enabled, Next, MessagesOk, ClaimsOk, Covered, InFlightOk, IsProper;
    if i == 0 {
    } else {
      FitAlways(run, steps, i - 1);
      Always(run, steps, i - 1);
      assert Enabled(run[i - 1], steps[i - 1]) && run[i - 1 + 1] == Next(run[i - 1], steps[i - 1]);
      StepFits(run[i - 1], steps[i - 1]);
    }
  }

  lemma StepFits(s: State, step: Step)
    requires ClaimsFit(s) && MessagesFit(s) && NamesFit(s) && MessagesOk(s) && ClaimsOk(s)
    requires Enabled(s, step) && IsProper(step)
    ensures ClaimsFit(Next(s, step)) && MessagesFit(Next(s, step)) && NamesFit(Next(s, step))
  {
    hide Enabled, Next, ClaimsOk, ClaimsFit, MessagesFit, IsProper;
    StepClaimsFit(s, step);
    StepMessagesFit(s, step);
    StepGrows(s, step);
  }

  lemma GenuineFits(s: State, f: Frame)
    requires Genuine(s, f) && ClaimsFit(s) && MessagesFit(s) && NamesFit(s) && MessagesOk(s) && ClaimsOk(s)
    ensures Peering.IsWellFormed(f)
  {
    if f.Feed? {
      assert Numbered(s, f.msg);
    } else {
      Exchanges.ValidIsField(f.typeName);
      Exchanges.ValidIsField(f.reg.key);
      assert Claim(f.typeName, f.reg) in s.registered;
    }
  }

  /** Whatever a reachable state holds for a link, written to the socket and read at the far end it
      is the same frames in the same order, but for bodies over the reader's limit. */
  lemma LinkSurvivesTheWire(run: seq<State>, steps: seq<Step>, i: nat, e: Edge, max: nat)
    requires IsRun(run, steps) && ProperStart(run[0]) && NamesFit(run[0])
    requires (forall step :: step in steps ==> IsProper(step)) && i < |run| && e in run[i].links
    ensures var l := run[i].links[e];
            && Peering.FramesOf(Peering.SerializeAll(l.queue), max) == Peering.Fitting(l.queue, max)
            && Peering.FramesOf(Peering.SerializeAll(l.wire), max) == Peering.Fitting(l.wire, max)
  {
    hide Peering.FramesOf, Peering.SerializeAll, Peering.Fitting, Peering.IsWellFormed, IsRun, ProperStart, IsProper;
    LinkFramesFit(run, steps, i, e);
    var l := run[i].links[e];
    assert forall f :: f in l.queue || f in l.wire ==> Holds(l, f);
    Peering.FrameStreamRoundTrip(l.queue, max);
    Peering.FrameStreamRoundTrip(l.wire, max);
  }

  lemma LinkFramesFit(run: seq<State>, steps: seq<Step>, i: nat, e: Edge)
    requires IsRun(run, steps) && ProperStart(run[0]) && NamesFit(run[0])
    requires (forall step :: step in steps ==> IsProper(step)) && i < |run| && e in run[i].links
    ensures forall f :: Holds(run[i].links[e], f) ==> Peering.IsWellFormed(f)
    ensures Torn.DistinctIds(run[i].links[e].wire)
  {
    hide IsRun, ProperStart, Covered, IsProper, Peering.IsWellFormed;
    Always(run, steps, i);
    FitAlways(run, steps, i);
    var s, l := run[i], run[i].links[e];
    assert LinkOk(s, e);
    forall f | Holds(l, f) ensures Genuine(s, f) && Peering.IsWellFormed(f) {
      assert FrameOk(s, e.src, f);
      GenuineFits(s, f);
    }
    assert forall f :: f in l.wire ==> Holds(l, f);
    assert IdsUnique(s);
  }

  /** A link of a reachable state goes down and its far end reads only the first `n` octets of what is on
      the wire.  It applies exactly the frames complete by then, whole, as the parcels of a dead socket
      are, if and only if the cut is clean; and a prefix of the frames in no other case either. */
  lemma DeadWireIff(run: seq<State>, steps: seq<Step>, i: nat, e: Edge, n: nat, max: nat)
    requires IsRun(run, steps) && ProperStart(run[0]) && NamesFit(run[0])
    requires (forall step :: step in steps ==> IsProper(step)) && i < |run| && e in run[i].links
    requires n <= |Peering.SerializeAll(run[i].links[e].wire)|
    ensures var wire := run[i].links[e].wire;
            var got := Peering.FramesOf(Peering.SerializeAll(wire)[..n], max);
            && (got == Peering.Fitting(wire[..Torn.WholeFrames(wire, n)], max) <==> Torn.CutsCleanly(wire, n, max))
            && (got <= Peering.Fitting(wire, max) <==> Torn.CutsCleanly(wire, n, max))
  {
    hide Peering.FramesOf, Peering.SerializeAll, Peering.Fitting, Peering.IsWellFormed, IsRun, ProperStart, IsProper;
    hide Torn.CutsCleanly, Torn.DistinctIds, Torn.WholeFrames;
    LinkFramesFit(run, steps, i, e);
    var wire := run[i].links[e].wire;
    assert forall f :: f in wire ==> Holds(run[i].links[e], f);
    Torn.CutStreamIff(wire, n, max);
    Torn.CutIsPrefixIff(wire, n, max);
  }
}
