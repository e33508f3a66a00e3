/** What every step of the cluster keeps. */
module Invariants {
  import opened Messages
  import opened Ownership
  import opened SeenSets
  import opened Registries
  import opened Cluster

  // --- knowledge only grows ----------------------------------------------------------

  /** Daemon `d` would ignore `f`: it holds a record at least as low, or accepted the message. */
  ghost predicate Knows(s: State, d: string, f: Frame)
  {
    && d in s.nodes
    && match f
       case Rreg(t, reg) => Settled(s.nodes[d].reg.types, t, reg)
       case Feed(m) => m in s.nodes[d].reg.accepted
  }

  /** `f` carries something a client of some daemon really registered or published. */
  ghost predicate Genuine(s: State, f: Frame)
  {
    match f
    case Rreg(t, reg) => Claim(t, reg) in s.registered
    case Feed(m) => m in s.published
  }

  ghost predicate RegGrows(r: RegState, r': RegState)
  {
    && r'.id == r.id
    && r'.seen.cap == r.seen.cap
    && r.nextSeq <= r'.nextSeq
    && r.accepted <= r'.accepted
    && Descends(r.types, r'.types)
  }

  ghost predicate Grows(s: State, s': State)
  {
    && s'.nodes.Keys == s.nodes.Keys
    && s.registered <= s'.registered
    && s.published <= s'.published
    && forall d :: d in s.nodes ==>
         RegGrows(s.nodes[d].reg, s'.nodes[d].reg) && s'.nodes[d].maxBytes == s.nodes[d].maxBytes
  }

  lemma RegGrowsReflexive(r: RegState)
    ensures RegGrows(r, r)
  {
    forall t | t in r.types ensures Settled(r.types, t, r.types[t]) {
      AtMostReflexive(r.types[t]);
    }
  }

  lemma GrowsByOne(s: State, s': State, d: string)
    requires d in s.nodes && d in s'.nodes && s'.nodes == s.nodes[d := s'.nodes[d]]
    requires s.registered <= s'.registered && s.published <= s'.published
    requires RegGrows(s.nodes[d].reg, s'.nodes[d].reg) && s'.nodes[d].maxBytes == s.nodes[d].maxBytes
    ensures Grows(s, s')
  {
    forall e | e in s.nodes ensures RegGrows(s.nodes[e].reg, s'.nodes[e].reg) {
      RegGrowsReflexive(s.nodes[e].reg);
    }
  }

  lemma GrowsByNone(s: State, s': State)
    requires s'.nodes == s.nodes
    requires s.registered <= s'.registered && s.published <= s'.published
    ensures Grows(s, s')
  {
    forall e | e in s.nodes ensures RegGrows(s.nodes[e].reg, s'.nodes[e].reg) {
      RegGrowsReflexive(s.nodes[e].reg);
    }
  }

  lemma ReceiveGrows(s: State, from: string, to: string, f: Frame)
    requires to in s.nodes
    ensures Grows(s, Receive(s, from, to, f))
  {
    var s', d := Receive(s, from, to, f), s.nodes[to];
    RegGrowsReflexive(d.reg);
    if f.Rreg? {
      ApplyDescends(d.reg.types, f.typeName, f.reg);
    }
    GrowsByOne(s, s', to);
  }

  lemma StepGrows(s: State, step: Step)
    requires Enabled(s, step)
    ensures Grows(s, Next(s, step))
  {
    var s' := Next(s, step);
    if step.Register? {
      var r := s.nodes[step.d].reg;
      RegisterDescends(r.types, r.id, step.t, step.key, step.now);
      RegGrowsReflexive(r);
      GrowsByOne(s, s', step.d);
    } else if step.Publish? || step.Client? {
      RegGrowsReflexive(s.nodes[step.d].reg);
      GrowsByOne(s, s', step.d);
    } else if step.FanJob? {
      RegGrowsReflexive(s.nodes[s.jobs[step.i].at].reg);
      GrowsByOne(s, s', s.jobs[step.i].at);
    } else if step.Deliver? {
      var e := step.e;
      GrowsByNone(s, Unwire(s, e));
      ReceiveGrows(Unwire(s, e), e.src, e.dst, s.links[e].wire[0]);
    } else if step.DeliverStale? {
      var p := s.stale[step.i];
      ReceiveGrows(Unstale(s, step.i), p.src, p.dst, p.frame);
    } else {
      GrowsByNone(s, s');
    }
  }

  lemma KnowsGrows(s: State, s': State, d: string, f: Frame)
    requires Grows(s, s') && Knows(s, d, f)
    ensures Knows(s', d, f)
  {
    match f
    case Rreg(t, reg) => DescendsKeepsSettled(s.nodes[d].reg.types, s'.nodes[d].reg.types, t, reg);
    case Feed(m) => assert m in s'.nodes[d].reg.accepted;
  }

  // --- every frame in flight is genuine and known where it comes from ----------------------

  ghost predicate FrameOk(s: State, at: string, f: Frame)
  {
    Knows(s, at, f) && Genuine(s, f)
  }

  ghost predicate JobOk(s: State, j: Job)
  {
    && FrameOk(s, j.at, j.frame)
    && (j.exclude.Some? ==> Knows(s, j.exclude.value, j.frame))
    && (!j.fanned ==> j.frame.Feed?)
  }

  ghost predicate LinkOk(s: State, e: Edge)
    requires e in s.links
  {
    && e.src in s.nodes && e.dst in s.nodes
    && (forall f :: Holds(s.links[e], f) ==> FrameOk(s, e.src, f))
    && (s.links[e].snap != [] ==> s.links[e].read)
  }

  ghost predicate InFlightOk(s: State)
  {
    && (forall e :: e in s.links ==> LinkOk(s, e))
    && (forall j :: j in s.jobs ==> JobOk(s, j))
    && (forall p :: p in s.stale ==> p.dst in s.nodes && FrameOk(s, p.src, p.frame))
  }

  lemma FrameOkGrows(s: State, s': State, at: string, f: Frame)
    requires Grows(s, s') && FrameOk(s, at, f)
    ensures FrameOk(s', at, f)
  {
    KnowsGrows(s, s', at, f);
  }

  lemma JobOkGrows(s: State, s': State, j: Job)
    requires Grows(s, s') && JobOk(s, j)
    ensures JobOk(s', j)
  {
    FrameOkGrows(s, s', j.at, j.frame);
    if j.exclude.Some? {
      KnowsGrows(s, s', j.exclude.value, j.frame);
    }
  }

  /** Growth alone keeps what is in flight; a step only has to account for what it adds. */
  lemma InFlightGrows(s: State, s': State)
    requires InFlightOk(s) && Grows(s, s')
    requires forall e :: e in s'.links ==> e in s.links || (e.src in s'.nodes && e.dst in s'.nodes)
    requires forall e :: e in s'.links && s'.links[e].snap != [] ==> s'.links[e].read
    requires forall e, f :: e in s'.links && Holds(s'.links[e], f) ==>
               (e in s.links && Holds(s.links[e], f)) || FrameOk(s', e.src, f)
    requires forall j :: j in s'.jobs ==> j in s.jobs || JobOk(s', j)
    requires forall p :: p in s'.stale ==> p in s.stale || (p.dst in s'.nodes && FrameOk(s', p.src, p.frame))
    ensures InFlightOk(s')
  {
    forall e | e in s'.links ensures LinkOk(s', e) {
      forall f | Holds(s'.links[e], f) ensures FrameOk(s', e.src, f) {
        if e in s.links && Holds(s.links[e], f) {
          assert LinkOk(s, e);
          FrameOkGrows(s, s', e.src, f);
        }
      }
      if e in s.links { assert LinkOk(s, e); }
    }
    forall j | j in s'.jobs ensures JobOk(s', j) {
      if j in s.jobs { JobOkGrows(s, s', j); }
    }
    forall p | p in s'.stale ensures p.dst in s'.nodes && FrameOk(s', p.src, p.frame) {
      if p in s.stale { FrameOkGrows(s, s', p.src, p.frame); }
    }
  }

  /** A daemon that receives a frame comes to know it, unless the body is over its limit. */
  lemma ReceiveKnows(s: State, from: string, to: string, f: Frame)
    requires to in s.nodes && FrameOk(s, from, f)
    ensures var s' := Receive(s, from, to, f);
            && (f.Feed? && BodySize(f.msg.body) > s.nodes[to].maxBytes ==> s' == s)
            && forall j :: j in s'.jobs ==> j in s.jobs || JobOk(s', j)
  {
    var s' := Receive(s, from, to, f);
    ReceiveGrows(s, from, to, f);
    KnowsGrows(s, s', from, f);
    forall j | j in s'.jobs && j !in s.jobs ensures JobOk(s', j) {
      if f.Rreg? {
        ApplyDescends(s.nodes[to].reg.types, f.typeName, f.reg);
      }
    }
  }

  lemma ReceiveInFlight(s: State, from: string, to: string, f: Frame)
    requires InFlightOk(s) && to in s.nodes && FrameOk(s, from, f)
    ensures InFlightOk(Receive(s, from, to, f))
  {
    var s' := Receive(s, from, to, f);
    ReceiveGrows(s, from, to, f);
    ReceiveKnows(s, from, to, f);
    forall e | e in s.links ensures LinkOk(s, e) {}
    InFlightGrows(s, s');
  }

  // --- message ids ---------------------------------------------------------------------------

  function MsgIds(ms: seq<Message>): seq<string>
  {
    seq(|ms|, i requires 0 <= i < |ms| => ms[i].msgId)
  }

  /** The number its origin gave `m`. */
  ghost predicate IsNumber(m: Message, n: nat)
  {
    m.msgId == MsgId(m.origin, n)
  }

  ghost predicate Numbered(s: State, m: Message)
  {
    m.origin in s.nodes && exists n: nat :: IsNumber(m, n) && n < s.nodes[m.origin].reg.nextSeq
  }

  ghost predicate DaemonOk(s: State, d: string)
    requires d in s.nodes
  {
    var r := s.nodes[d].reg;
    && r.id == d
    && r.seen.cap >= 1
    && WindowOk(r)
    && (forall m :: m in r.accepted ==> m in s.published)
  }

  /** The window is the last `cap` accepted ids, and no id was accepted twice within `cap` others. */
  ghost predicate WindowOk(r: RegState)
  {
    && r.seen.order == Last(MsgIds(r.accepted), r.seen.cap)
    && Spaced(MsgIds(r.accepted), r.seen.cap)
  }

  ghost predicate DaemonsOk(s: State)
  {
    forall d :: d in s.nodes ==> DaemonOk(s, d)
  }

  ghost predicate AllNumbered(s: State)
  {
    forall m :: m in s.published ==> Numbered(s, m)
  }

  ghost predicate IdsUnique(s: State)
  {
    forall m, k :: m in s.published && k in s.published && m.msgId == k.msgId ==> m == k
  }

  ghost predicate MessagesOk(s: State)
  {
    DaemonsOk(s) && AllNumbered(s) && IdsUnique(s)
  }

  lemma MsgIdsSnoc(ms: seq<Message>, m: Message)
    ensures MsgIds(ms + [m]) == MsgIds(ms) + [m.msgId]
  {
  }

  /** An id in the window belongs to a message accepted here. */
  lemma SeenWasAccepted(r: RegState, id: string) returns (m: Message)
    requires WindowOk(r) && id in r.seen.order
    ensures m in r.accepted && m.msgId == id
  {
    var k :| 0 <= k < |r.seen.order| && r.seen.order[k] == id;
    var i := if |r.accepted| <= r.seen.cap then k else k + |r.accepted| - r.seen.cap;
    assert MsgIds(r.accepted)[i] == id;
    m := r.accepted[i];
  }

  /** Deduplication never discards a message that was not accepted here before. */
  lemma DuplicateWasAccepted(s: State, d: string, m: Message)
    requires MessagesOk(s) && d in s.nodes && m in s.published && m.msgId in s.nodes[d].reg.seen.order
    ensures m in s.nodes[d].reg.accepted
  {
    assert DaemonOk(s, d);
    var k := SeenWasAccepted(s.nodes[d].reg, m.msgId);
    assert k in s.published;
  }

  /** The id of the next message was never used by anyone. */
  lemma NextIdIsFresh(s: State, d: string, k: Message)
    requires MessagesOk(s) && d in s.nodes && k in s.published
    ensures k.msgId != MsgId(d, s.nodes[d].reg.nextSeq)
  {
    assert Numbered(s, k);
    var n: nat :| IsNumber(k, n) && n < s.nodes[k.origin].reg.nextSeq;
    if k.msgId == MsgId(d, s.nodes[d].reg.nextSeq) {
      MsgIdInjective(k.origin, n, d, s.nodes[d].reg.nextSeq);
    }
  }

  /** A newly published message is never mistaken for a duplicate: it is recorded at once. */
  lemma PublishIsNew(s: State, d: string, t: string, body: seq<string>)
    requires MessagesOk(s) && d in s.nodes
    ensures var r := s.nodes[d].reg;
            Accept(r.(nextSeq := r.nextSeq + 1), NextMessage(r, t, body)).0
  {
    var r := s.nodes[d].reg;
    var m := NextMessage(r, t, body);
    assert DaemonOk(s, d);
    if m.msgId in r.seen.order {
      var k := SeenWasAccepted(r, m.msgId);
      NextIdIsFresh(s, d, k);
    }
  }

  lemma AcceptDaemonOk(r: RegState, m: Message)
    requires WindowOk(r)
    ensures WindowOk(Accept(r, m).1)
  {
    if m.msgId !in r.seen.order {
      SpacedExtend(MsgIds(r.accepted), m.msgId, r.seen.cap);
    }
    MsgIdsSnoc(r.accepted, m);
    LastOfLast(MsgIds(r.accepted), m.msgId, r.seen.cap);
  }

  lemma NumberedGrows(s: State, s': State, m: Message)
    requires Grows(s, s') && Numbered(s, m)
    ensures Numbered(s', m)
  {
    var n: nat :| IsNumber(m, n) && n < s.nodes[m.origin].reg.nextSeq;
    assert RegGrows(s.nodes[m.origin].reg, s'.nodes[m.origin].reg);
    assert IsNumber(m, n) && n < s'.nodes[m.origin].reg.nextSeq;
  }

  /** Messages stay well numbered when no message is published. */
  lemma MessagesGrow(s: State, s': State)
    requires MessagesOk(s) && Grows(s, s') && s'.published == s.published
    requires DaemonsOk(s')
    ensures MessagesOk(s')
  {
    forall m | m in s'.published ensures Numbered(s', m) {
      NumberedGrows(s, s', m);
    }
  }

  /** A step that leaves every registry's acceptance history alone. */
  lemma MessagesSame(s: State, s': State)
    requires MessagesOk(s) && Grows(s, s') && s'.published == s.published
    requires forall d :: d in s'.nodes ==>
      s'.nodes[d].reg.accepted == s.nodes[d].reg.accepted && s'.nodes[d].reg.seen == s.nodes[d].reg.seen
    ensures MessagesOk(s')
  {
    forall d | d in s'.nodes ensures DaemonOk(s', d) {
      assert DaemonOk(s, d) && RegGrows(s.nodes[d].reg, s'.nodes[d].reg);
    }
    MessagesGrow(s, s');
  }

  lemma ReceiveMessages(s: State, from: string, to: string, f: Frame)
    requires MessagesOk(s) && to in s.nodes && Genuine(s, f)
    ensures MessagesOk(Receive(s, from, to, f))
  {
    var s' := Receive(s, from, to, f);
    ReceiveGrows(s, from, to, f);
    forall d | d in s'.nodes ensures DaemonOk(s', d) {
      assert DaemonOk(s, d) && DaemonOk(s, to);
      if d == to && f.Feed? {
        AcceptDaemonOk(s.nodes[to].reg, f.msg);
      }
    }
    MessagesGrow(s, s');
  }

  /** What an authorized publish does to the publishing registry. */
  lemma PublishEffect(s: State, d: string, t: string, key: string, body: seq<string>)
    requires MessagesOk(s) && d in s.nodes
    requires Authorize(s.nodes[d].reg.types, t, key) == Authorized
    ensures var r, r' := s.nodes[d].reg, PublishStep(s.nodes[d].reg, t, key, body);
            && r'.accepted == r.accepted + [NextMessage(r, t, body)]
            && r'.id == r.id && r'.seen.cap == r.seen.cap && r'.nextSeq == r.nextSeq + 1 && r'.types == r.types
            && WindowOk(r')
  {
    var r := s.nodes[d].reg;
    assert DaemonOk(s, d);
    PublishIsNew(s, d, t, body);
    AcceptDaemonOk(r.(nextSeq := r.nextSeq + 1), NextMessage(r, t, body));
  }

  lemma PublishMessages(s: State, d: string, t: string, key: string, body: seq<string>)
    requires MessagesOk(s) && d in s.nodes
    ensures Grows(s, PublishAt(s, d, t, key, body))
    ensures MessagesOk(PublishAt(s, d, t, key, body))
  {
    var r, s' := s.nodes[d].reg, PublishAt(s, d, t, key, body);
    assert Grows(s, s') by { StepGrows(s, Publish(d, t, key, body)); }
    if Authorize(r.types, t, key) == Authorized {
      var m := NextMessage(r, t, body);
      assert DaemonsOk(s') by { PublishDaemons(s, d, t, key, body); }
      assert AllNumbered(s') && IdsUnique(s') by {
        assert DaemonOk(s, d);
        PublishNumbers(s, s', d, m);
        PublishUnique(s, s', d, m);
      }
    }
  }

  lemma PublishDaemons(s: State, d: string, t: string, key: string, body: seq<string>)
    requires MessagesOk(s) && d in s.nodes
    requires Authorize(s.nodes[d].reg.types, t, key) == Authorized
    ensures DaemonsOk(PublishAt(s, d, t, key, body))
  {
    PublishEffect(s, d, t, key, body);
    assert DaemonOk(s, d);
    forall e | e in s.nodes ensures DaemonOk(PublishAt(s, d, t, key, body), e) {
      assert DaemonOk(s, e);
    }
  }

  lemma PublishNumbers(s: State, s': State, d: string, m: Message)
    requires MessagesOk(s) && d in s.nodes && Grows(s, s')
    requires m.origin == d && IsNumber(m, s.nodes[d].reg.nextSeq) && s'.published == s.published + {m}
    requires s'.nodes[d].reg.nextSeq == s.nodes[d].reg.nextSeq + 1
    ensures AllNumbered(s')
  {
    forall k | k in s'.published ensures Numbered(s', k) {
      if k in s.published {
        NumberedGrows(s, s', k);
      }
    }
  }

  lemma PublishUnique(s: State, s': State, d: string, m: Message)
    requires MessagesOk(s) && d in s.nodes
    requires m.msgId == MsgId(d, s.nodes[d].reg.nextSeq) && s'.published == s.published + {m}
    ensures IdsUnique(s')
  {
    forall k | k in s.published ensures k.msgId != m.msgId {
      NextIdIsFresh(s, d, k);
    }
  }

  lemma DeliverMessages(s: State, mid: State, from: string, to: string, f: Frame)
    requires MessagesOk(s) && mid.nodes == s.nodes && mid.published == s.published && mid.registered == s.registered
    requires to in s.nodes && Genuine(s, f)
    ensures MessagesOk(Receive(mid, from, to, f))
  {
    GrowsByNone(s, mid);
    MessagesSame(s, mid);
    ReceiveMessages(mid, from, to, f);
  }

  lemma StepMessages(s: State, step: Step)
    requires MessagesOk(s) && InFlightOk(s) && Enabled(s, step)
    ensures MessagesOk(Next(s, step))
  {
    if step.Publish? {
      PublishMessages(s, step.d, step.t, step.key, step.body);
    } else if step.Deliver? {
      var e := step.e;
      assert LinkOk(s, e) && Holds(s.links[e], s.links[e].wire[0]);
      DeliverMessages(s, Unwire(s, e), e.src, e.dst, s.links[e].wire[0]);
    } else if step.DeliverStale? {
      var p := s.stale[step.i];
      assert p in s.stale;
      DeliverMessages(s, Unstale(s, step.i), p.src, p.dst, p.frame);
    } else {
      StepGrows(s, step);
      OtherStepAccepts(s, step);
      MessagesSame(s, Next(s, step));
    }
  }

  lemma OtherStepAccepts(s: State, step: Step)
    requires Enabled(s, step) && !step.Publish? && !step.Deliver? && !step.DeliverStale?
    ensures Next(s, step).published == s.published
    ensures forall d :: d in s.nodes ==>
      && Next(s, step).nodes[d].reg.accepted == s.nodes[d].reg.accepted
      && Next(s, step).nodes[d].reg.seen == s.nodes[d].reg.seen
  {
    hide Do, CanDo, Broadcast, Parcels, IsSnapshot;
    if step.Client? {
      ClientKeepsHistory(s.nodes[step.d], step.c, step.op);
    }
  }

  lemma ClientKeepsHistory(d: Daemon, c: nat, op: ClientOp)
    requires CanDo(d, c, op)
    ensures var r := Do(d, c, op).reg; r.accepted == d.reg.accepted && r.seen == d.reg.seen
  {
  }

  // --- claims ------------------------------------------------------------------------------------

  /** Every table entry was really registered somewhere. */
  ghost predicate EntriesClaimed(s: State)
  {
    forall d, t {:trigger Claim(t, s.nodes[d].reg.types[t])} ::
      d in s.nodes && t in s.nodes[d].reg.types ==> Claim(t, s.nodes[d].reg.types[t]) in s.registered
  }

  /** The daemon a claim originates from still holds a record at least as low. */
  ghost predicate ClaimsKnown(s: State)
  {
    forall c :: c in s.registered ==>
      c.reg.origin in s.nodes && Settled(s.nodes[c.reg.origin].reg.types, c.typeName, c.reg)
  }

  /** Each daemon originates at most one record per type. */
  ghost predicate ClaimsUnique(s: State)
  {
    forall c, k :: c in s.registered && k in s.registered ==>
      c.typeName == k.typeName && c.reg.origin == k.reg.origin ==> c == k
  }

  ghost predicate ClaimsOk(s: State)
  {
    EntriesClaimed(s) && ClaimsKnown(s) && ClaimsUnique(s)
  }

  lemma ClaimsKnownGrow(s: State, s': State)
    requires ClaimsKnown(s) && Grows(s, s') && s'.registered == s.registered
    ensures ClaimsKnown(s')
  {
    forall c | c in s'.registered
      ensures c.reg.origin in s'.nodes && Settled(s'.nodes[c.reg.origin].reg.types, c.typeName, c.reg) {
      var o := c.reg.origin;
      assert RegGrows(s.nodes[o].reg, s'.nodes[o].reg);
      DescendsKeepsSettled(s.nodes[o].reg.types, s'.nodes[o].reg.types, c.typeName, c.reg);
    }
  }

  lemma ClaimsGrow(s: State, s': State)
    requires ClaimsOk(s) && Grows(s, s') && s'.registered == s.registered
    requires forall d :: d in s.nodes ==> s'.nodes[d].reg.types == s.nodes[d].reg.types
    ensures ClaimsOk(s')
  {
    ClaimsKnownGrow(s, s');
  }

  lemma ReceiveEntries(s: State, from: string, to: string, f: Frame)
    requires EntriesClaimed(s) && to in s.nodes && Genuine(s, f)
    ensures EntriesClaimed(Receive(s, from, to, f))
  {
    var s' := Receive(s, from, to, f);
    forall d, t | d in s'.nodes && t in s'.nodes[d].reg.types
      ensures Claim(t, s'.nodes[d].reg.types[t]) in s'.registered
    {
      if d != to || f.Feed? || t != f.typeName || s'.nodes[d].reg.types[t] != f.reg {
        assert Claim(t, s.nodes[d].reg.types[t]) in s.registered;
      }
    }
  }

  lemma DeliverClaims(s: State, mid: State, from: string, to: string, f: Frame)
    requires ClaimsOk(s) && mid.nodes == s.nodes && mid.published == s.published && mid.registered == s.registered
    requires to in s.nodes && Genuine(s, f)
    ensures ClaimsOk(Receive(mid, from, to, f))
  {
    var s' := Receive(mid, from, to, f);
    assert ClaimsKnown(s') by {
      ReceiveGrows(mid, from, to, f);
      ClaimsKnownGrow(mid, s');
    }
    assert EntriesClaimed(s') by {
      assert EntriesClaimed(mid);
      ReceiveEntries(mid, from, to, f);
    }
  }

  /** A daemon that registers a type had no entry for it, hence never claimed it before. */
  lemma RegisterClaims(s: State, d: string, t: string, key: string, now: nat)
    requires ClaimsOk(s) && DaemonsOk(s) && d in s.nodes
    ensures ClaimsOk(RegisterAt(s, d, t, key, now))
  {
    var s' := RegisterAt(s, d, t, key, now);
    assert DaemonOk(s, d);
    if t !in s.nodes[d].reg.types {
      var c := Claim(t, TypeReg(key, d, now));
      assert ClaimsUnique(s');
      assert ClaimsKnown(s') by { RegisterKnown(s, d, t, key, now); }
      assert EntriesClaimed(s') by { RegisterEntries(s, d, t, key, now); }
    }
  }

  lemma RegisterKnown(s: State, d: string, t: string, key: string, now: nat)
    requires ClaimsKnown(s) && DaemonsOk(s) && d in s.nodes && t !in s.nodes[d].reg.types
    ensures ClaimsKnown(RegisterAt(s, d, t, key, now))
  {
    var s' := RegisterAt(s, d, t, key, now);
    assert DaemonOk(s, d);
    StepGrows(s, Register(d, t, key, now));
    var before := s'.(registered := s.registered);
    assert Grows(s, before);
    ClaimsKnownGrow(s, before);
    AtMostReflexive(TypeReg(key, d, now));
  }

  lemma RegisterEntries(s: State, d: string, t: string, key: string, now: nat)
    requires EntriesClaimed(s) && d in s.nodes && t !in s.nodes[d].reg.types
    ensures EntriesClaimed(RegisterAt(s, d, t, key, now))
  {
    var s' := RegisterAt(s, d, t, key, now);
    forall e, u | e in s'.nodes && u in s'.nodes[e].reg.types
      ensures Claim(u, s'.nodes[e].reg.types[u]) in s'.registered
    {
      if e != d || u != t {
        assert Claim(u, s.nodes[e].reg.types[u]) in s.registered;
      }
    }
  }

  lemma OtherStepTypes(s: State, step: Step)
    requires Enabled(s, step) && !step.Register? && !step.Deliver? && !step.DeliverStale?
    ensures Next(s, step).registered == s.registered
    ensures forall d :: d in s.nodes ==> Next(s, step).nodes[d].reg.types == s.nodes[d].reg.types
  {
    hide Do, CanDo, OfferTo, Insert, Broadcast, Parcels;
    if step.Client? {
      DoTypes(s.nodes[step.d], step.c, step.op);
    }
  }

  lemma DoTypes(n: Daemon, c: nat, op: ClientOp)
    requires CanDo(n, c, op)
    ensures Do(n, c, op).reg.types == n.reg.types
  {
  }

  lemma StepClaims(s: State, step: Step)
    requires ClaimsOk(s) && DaemonsOk(s) && InFlightOk(s) && Enabled(s, step)
    ensures ClaimsOk(Next(s, step))
  {
    if step.Register? {
      RegisterClaims(s, step.d, step.t, step.key, step.now);
    } else if step.Deliver? {
      var e := step.e;
      assert LinkOk(s, e) && Holds(s.links[e], s.links[e].wire[0]);
      DeliverClaims(s, Unwire(s, e), e.src, e.dst, s.links[e].wire[0]);
    } else if step.DeliverStale? {
      var p := s.stale[step.i];
      assert p in s.stale;
      DeliverClaims(s, Unstale(s, step.i), p.src, p.dst, p.frame);
    } else {
      StepGrows(s, step);
      OtherStepTypes(s, step);
      ClaimsGrow(s, Next(s, step));
    }
  }

  // --- in-flight frames through each step -------------------------------------------------------

  lemma LinkStepInFlight(s: State, s': State, e: Edge)
    requires InFlightOk(s) && e in s.links && e in s'.links
    requires s' == s.(links := s.links[e := s'.links[e]])
    requires forall f :: Holds(s'.links[e], f) ==> Holds(s.links[e], f) || FrameOk(s, e.src, f)
    requires s'.links[e].snap != [] ==> s'.links[e].read
    ensures InFlightOk(s')
  {
    GrowsByNone(s, s');
    assert LinkOk(s, e);
    forall e' | e' in s'.links && s'.links[e'].snap != [] ensures s'.links[e'].read {
      assert LinkOk(s, e');
    }
    forall f | Holds(s'.links[e], f) && !Holds(s.links[e], f) ensures FrameOk(s', e.src, f) {
      FrameOkGrows(s, s', e.src, f);
    }
    InFlightGrows(s, s');
  }

  lemma EnqueueHolds(l: Link, f: Frame, g: Frame)
    ensures Holds(Enqueue(l, f), g) ==> Holds(l, g) || g == f
    ensures Holds(Enqueue(l, f), f) || f in Enqueue(l, f).refused
    ensures Holds(l, g) ==> Holds(Enqueue(l, f), g)
    ensures l.refused <= Enqueue(l, f).refused <= l.refused + {f}
  {
  }

  lemma TransmitHolds(l: Link, g: Frame)
    requires l.queue != []
    ensures Holds(Transmit(l), g) <==> Holds(l, g)
  {
    assert l.queue == [l.queue[0]] + l.queue[1..];
  }

  lemma PushHolds(l: Link, g: Frame)
    requires l.snap != []
    ensures Holds(PushSnapshot(l), g) ==> Holds(l, g)
    ensures Holds(l, g) ==> Holds(PushSnapshot(l), g) || g in PushSnapshot(l).refused
    ensures l.refused <= PushSnapshot(l).refused <= l.refused + {l.snap[0]}
  {
    assert l.snap == [l.snap[0]] + l.snap[1..];
  }

  lemma SendInFlight(s: State, i: nat)
    requires InFlightOk(s) && i < |s.jobs| && s.jobs[i].fanned
    ensures InFlightOk(SendAt(s, i))
  {
    var s', j := SendAt(s, i), s.jobs[i];
    GrowsByNone(s, s');
    assert JobOk(s, j);
    FrameOkGrows(s, s', j.at, j.frame);
    forall e | e in s'.links ensures e in s.links && (s'.links[e].snap != [] ==> s'.links[e].read) {
      assert LinkOk(s, e);
    }
    forall e, f | e in s'.links && Holds(s'.links[e], f) ensures Holds(s.links[e], f) || FrameOk(s', e.src, f) {
      EnqueueHolds(s.links[e], j.frame, f);
    }
    InFlightGrows(s, s');
  }

  lemma RegisterInFlight(s: State, d: string, t: string, key: string, now: nat)
    requires InFlightOk(s) && DaemonsOk(s) && d in s.nodes
    ensures InFlightOk(RegisterAt(s, d, t, key, now))
  {
    var s' := RegisterAt(s, d, t, key, now);
    assert Grows(s, s') by { StepGrows(s, Register(d, t, key, now)); }
    forall e | e in s.links ensures LinkOk(s, e) {}
    forall j | j in s'.jobs && j !in s.jobs ensures JobOk(s', j) {
      AtMostReflexive(j.frame.reg);
    }
    InFlightGrows(s, s');
  }

  lemma PublishInFlight(s: State, d: string, t: string, key: string, body: seq<string>)
    requires InFlightOk(s) && MessagesOk(s) && d in s.nodes
    ensures InFlightOk(PublishAt(s, d, t, key, body))
  {
    var s' := PublishAt(s, d, t, key, body);
    assert Grows(s, s') by { StepGrows(s, Publish(d, t, key, body)); }
    forall e | e in s.links ensures LinkOk(s, e) {}
    forall j | j in s'.jobs && j !in s.jobs ensures JobOk(s', j) {
      PublishEffect(s, d, t, key, body);
    }
    InFlightGrows(s, s');
  }

  lemma NodeStepInFlight(s: State, s': State)
    requires InFlightOk(s) && Grows(s, s')
    requires s'.links == s.links && s'.stale == s.stale
    requires forall j :: j in s'.jobs ==> j in s.jobs || (j.(fanned := false) in s.jobs && j.fanned)
    ensures InFlightOk(s')
  {
    forall e | e in s.links ensures LinkOk(s, e) {}
    forall j | j in s'.jobs && j !in s.jobs ensures JobOk(s', j) {
      JobOkGrows(s, s', j.(fanned := false));
    }
    InFlightGrows(s, s');
  }

  lemma DownInFlight(s: State, e: Edge)
    requires InFlightOk(s) && e in s.links
    ensures InFlightOk(Next(s, Down(e)))
  {
    var s' := s.(links := s.links - {e}, stale := s.stale + Parcels(e, s.links[e].wire));
    GrowsByNone(s, s');
    forall e' | e' in s.links ensures LinkOk(s, e') {}
    forall p | p in s'.stale && p !in s.stale ensures p.dst in s'.nodes && FrameOk(s', p.src, p.frame) {
      assert LinkOk(s, e) && Holds(s.links[e], p.frame);
      FrameOkGrows(s, s', e.src, p.frame);
    }
    InFlightGrows(s, s');
  }

  lemma InstallInFlight(s: State, e: Edge)
    requires InFlightOk(s) && Enabled(s, Install(e))
    ensures InFlightOk(Next(s, Install(e)))
  {
    var s' := s.(links := s.links[e := NewLink(|s.nodes[e.src].reg.accepted|)]);
    GrowsByNone(s, s');
    forall e' | e' in s.links ensures LinkOk(s, e') {}
    InFlightGrows(s, s');
  }

  lemma UnwireInFlight(s: State, e: Edge)
    requires InFlightOk(s) && e in s.links && s.links[e].wire != []
    ensures InFlightOk(Unwire(s, e))
    ensures e.dst in s.nodes && FrameOk(s, e.src, s.links[e].wire[0])
  {
    assert LinkOk(s, e) && Holds(s.links[e], s.links[e].wire[0]);
    LinkStepInFlight(s, Unwire(s, e), e);
  }

  lemma UnstaleInFlight(s: State, i: nat)
    requires InFlightOk(s) && i < |s.stale|
    ensures InFlightOk(Unstale(s, i))
    ensures FrameOk(s, s.stale[i].src, s.stale[i].frame) && s.stale[i].dst in s.nodes
  {
    assert s.stale[i] in s.stale;
    GrowsByNone(s, Unstale(s, i));
    forall e | e in s.links ensures LinkOk(s, e) {}
    InFlightGrows(s, Unstale(s, i));
  }

  lemma LinkMoveInFlight(s: State, step: Step)
    requires InFlightOk(s) && ClaimsOk(s) && Enabled(s, step) && (step.Snapshot? || step.Push? || step.Write?)
    ensures InFlightOk(Next(s, step))
  {
    var s' := Next(s, step);
    assert LinkOk(s, step.e);
    forall f | Holds(s'.links[step.e], f) && !Holds(s.links[step.e], f) ensures FrameOk(s, step.e.src, f) {
      if step.Snapshot? {
        AtMostReflexive(f.reg);
        assert Claim(f.typeName, s.nodes[step.e.src].reg.types[f.typeName]) in s.registered;
      } else if step.Push? {
        PushHolds(s.links[step.e], f);
      } else {
        TransmitHolds(s.links[step.e], f);
      }
    }
    LinkStepInFlight(s, s', step.e);
  }

  lemma StepInFlight(s: State, step: Step)
    requires MessagesOk(s) && ClaimsOk(s) && InFlightOk(s) && Enabled(s, step)
    ensures InFlightOk(Next(s, step))
  {
    hide InFlightOk, ClaimsOk;
    if step.Register? {
      RegisterInFlight(s, step.d, step.t, step.key, step.now);
    } else if step.Publish? {
      PublishInFlight(s, step.d, step.t, step.key, step.body);
    } else if step.Client? || step.FanJob? {
      StepGrows(s, step);
      NodeStepInFlight(s, Next(s, step));
    } else if step.SendJob? {
      SendInFlight(s, step.i);
    } else if step.Install? {
      InstallInFlight(s, step.e);
    } else if step.Down? {
      DownInFlight(s, step.e);
    } else if step.Deliver? {
      UnwireInFlight(s, step.e);
      ReceiveInFlight(Unwire(s, step.e), step.e.src, step.e.dst, s.links[step.e].wire[0]);
    } else if step.DeliverStale? {
      var p := s.stale[step.i];
      UnstaleInFlight(s, step.i);
      ReceiveInFlight(Unstale(s, step.i), p.src, p.dst, p.frame);
    } else if step.LoseStale? {
      UnstaleInFlight(s, step.i);
    } else {
      LinkMoveInFlight(s, step);
    }
  }

  // --- refused frames -----------------------------------------------------------------------------------

  /** What a full queue turned away was genuine. */
  ghost predicate RefusedOk(s: State)
  {
    forall e, f :: e in s.links && f in s.links[e].refused ==> Genuine(s, f)
  }

  lemma RefusedGrow(s: State, s': State)
    requires RefusedOk(s) && s.registered <= s'.registered && s.published <= s'.published
    requires forall e, f :: e in s'.links && f in s'.links[e].refused ==>
               (e in s.links && f in s.links[e].refused) || Genuine(s, f)
    ensures RefusedOk(s')
  {
    forall e, f | e in s'.links && f in s'.links[e].refused ensures Genuine(s', f) {
      assert Genuine(s, f);
    }
  }

  lemma SendRefused(s: State, i: nat)
    requires RefusedOk(s) && InFlightOk(s) && i < |s.jobs|
    ensures RefusedOk(SendAt(s, i))
  {
    var j := s.jobs[i];
    assert j in s.jobs && JobOk(s, j);
    forall e, f | e in s.links && f in SendAt(s, i).links[e].refused
      ensures f in s.links[e].refused || Genuine(s, f)
    {
      EnqueueHolds(s.links[e], j.frame, f);
    }
    RefusedGrow(s, SendAt(s, i));
  }

  lemma PushRefused(s: State, e: Edge)
    requires RefusedOk(s) && InFlightOk(s) && e in s.links && s.links[e].snap != []
    ensures RefusedOk(s.(links := s.links[e := PushSnapshot(s.links[e])]))
  {
    var l := s.links[e];
    assert LinkOk(s, e) && Holds(l, l.snap[0]) && FrameOk(s, e.src, l.snap[0]);
    PushHolds(l, l.snap[0]);
    RefusedGrow(s, s.(links := s.links[e := PushSnapshot(l)]));
  }

  lemma OtherRefused(s: State, step: Step)
    requires Enabled(s, step) && !step.SendJob? && !step.Push?
    ensures forall e :: e in Next(s, step).links && e in s.links && !(step.Install? && e == step.e) ==>
              Next(s, step).links[e].refused == s.links[e].refused
    ensures forall e :: e in Next(s, step).links && (e !in s.links || (step.Install? && e == step.e)) ==>
              Next(s, step).links[e].refused == {}
  {
    hide Do, CanDo, FanOut, PublishStep, ApplyRemote, Accept;
  }

  lemma StepRefused(s: State, step: Step)
    requires RefusedOk(s) && InFlightOk(s) && Enabled(s, step)
    ensures RefusedOk(Next(s, step))
  {
    if step.SendJob? {
      SendRefused(s, step.i);
    } else if step.Push? {
      PushRefused(s, step.e);
    } else {
      StepGrows(s, step);
      OtherRefused(s, step);
      RefusedGrow(s, Next(s, step));
    }
  }
}
