/** Along every link that is up, whatever the sender holds has reached the receiver, is still on
    its way, or was refused by the link's full queue, despite source exclusion, interleaving and
    reconnect snapshots. */
module Coverage {
  import opened Text
  import opened Messages
  import opened Ownership
  import opened Registries
  import opened Cluster
  import opened Invariants

  /** The far end has dealt with `f` for good: it knows it, or refuses its size. */
  ghost predicate Arrived(s: State, d: string, f: Frame)
  {
    d in s.nodes && (Knows(s, d, f) || (f.Feed? && BodySize(f.msg.body) > s.nodes[d].maxBytes))
  }

  /** Link `e` owes `f` to its far end: a current record once the snapshot has been taken, or
      a message accepted since the link came up. */
  ghost predicate Due(s: State, e: Edge, f: Frame)
  {
    && e in s.links && e.src in s.nodes
    && match f
       case Rreg(t, reg) =>
         s.links[e].read && t in s.nodes[e.src].reg.types && s.nodes[e.src].reg.types[t] == reg
       case Feed(m) =>
         exists i :: s.links[e].since <= i < |s.nodes[e.src].reg.accepted| && s.nodes[e.src].reg.accepted[i] == m
  }

  ghost predicate Carries(j: Job, e: Edge, f: Frame)
  {
    j.at == e.src && j.frame == f && j.exclude != Some(e.dst)
  }

  ghost predicate InTransit(s: State, e: Edge, f: Frame)
    requires e in s.links
  {
    Holds(s.links[e], f) || exists j :: j in s.jobs && Carries(j, e, f)
  }

  /** In transit, or lost to the full queue. */
  ghost predicate Tracked(s: State, e: Edge, f: Frame)
    requires e in s.links
  {
    InTransit(s, e, f) || f in s.links[e].refused
  }

  /** Every frame due on `e` has arrived, is in transit, or was refused. */
  ghost predicate LinkCovered(s: State, e: Edge)
    requires e in s.links
  {
    forall f :: Due(s, e, f) ==> Arrived(s, e.dst, f) || Tracked(s, e, f)
  }

  ghost predicate Covered(s: State)
  {
    forall e :: e in s.links ==> LinkCovered(s, e)
  }

  lemma ArrivedGrows(s: State, s': State, d: string, f: Frame)
    requires Grows(s, s') && Arrived(s, d, f)
    ensures Arrived(s', d, f)
  {
    if Knows(s, d, f) {
      KnowsGrows(s, s', d, f);
    }
  }

  /** A link stays covered if nothing new is due on it and nothing in transit vanishes. */
  lemma LinkStaysCovered(s: State, s': State, e: Edge)
    requires e in s.links && e in s'.links && Grows(s, s') && LinkCovered(s, e)
    requires forall f :: Due(s', e, f) && !Due(s, e, f) ==> Arrived(s', e.dst, f) || Tracked(s', e, f)
    requires forall f :: Tracked(s, e, f) ==> Tracked(s', e, f) || Arrived(s', e.dst, f)
    ensures LinkCovered(s', e)
  {
    forall f | Due(s', e, f) ensures Arrived(s', e.dst, f) || Tracked(s', e, f) {
      if Due(s, e, f) && Arrived(s, e.dst, f) {
        ArrivedGrows(s, s', e.dst, f);
      }
    }
  }

  // --- steps that create a job ------------------------------------------------------------

  /** News at one daemon is covered by the job that will broadcast it. */
  lemma NewsCovered(s: State, s': State, j: Job)
    requires Covered(s) && Grows(s, s')
    requires s'.links == s.links && s'.jobs == s.jobs + [j]
    requires forall e, f :: Due(s', e, f) && !Due(s, e, f) ==> e.src == j.at && f == j.frame
    requires j.exclude.Some? ==> Arrived(s', j.exclude.value, j.frame)
    ensures Covered(s')
  {
    forall e | e in s'.links ensures LinkCovered(s', e) {
      forall f | Due(s', e, f) && !Due(s, e, f) ensures Arrived(s', e.dst, f) || Tracked(s', e, f) {
        assert j in s'.jobs;
        assert j.exclude != Some(e.dst) ==> Carries(j, e, f);
      }
      forall f | Tracked(s, e, f) ensures Tracked(s', e, f) {
        if !Holds(s.links[e], f) && f !in s.links[e].refused {
          var k :| k in s.jobs && Carries(k, e, f);
          assert k in s'.jobs;
        }
      }
      LinkStaysCovered(s, s', e);
    }
  }

  /** A step that makes nothing new due and leaves every link's frames and every job in place. */
  lemma NothingNewCovered(s: State, s': State)
    requires Covered(s) && Grows(s, s')
    requires s'.links.Keys <= s.links.Keys
    requires forall e, f :: e in s'.links && Due(s', e, f) ==> Due(s, e, f)
    requires forall e, f :: e in s'.links && Tracked(s, e, f) ==> Tracked(s', e, f) || Arrived(s', e.dst, f)
    ensures Covered(s')
  {
    forall e | e in s'.links ensures LinkCovered(s', e) {
      LinkStaysCovered(s, s', e);
    }
  }

  lemma RegisterCovered(s: State, d: string, t: string, key: string, now: nat)
    requires Covered(s) && DaemonsOk(s) && d in s.nodes
    ensures Covered(RegisterAt(s, d, t, key, now))
  {
    if t !in s.nodes[d].reg.types {
      StepGrows(s, Register(d, t, key, now));
      assert DaemonOk(s, d);
      NewsCovered(s, RegisterAt(s, d, t, key, now), Job(d, Rreg(t, TypeReg(key, d, now)), None, true));
    }
  }

  lemma DueSnoc(s: State, s': State, e: Edge, m: Message, f: Frame)
    requires e.src in s.nodes && e.src in s'.nodes && s'.links == s.links
    requires s'.nodes[e.src].reg.types == s.nodes[e.src].reg.types
    requires s'.nodes[e.src].reg.accepted == s.nodes[e.src].reg.accepted + [m]
    requires Due(s', e, f)
    ensures Due(s, e, f) || f == Feed(m)
  {
  }

  lemma PublishCovered(s: State, d: string, t: string, key: string, body: seq<string>)
    requires Covered(s) && MessagesOk(s) && d in s.nodes
    ensures Covered(PublishAt(s, d, t, key, body))
  {
    var s', r := PublishAt(s, d, t, key, body), s.nodes[d].reg;
    if Authorize(r.types, t, key) == Authorized {
      var m := NextMessage(r, t, body);
      assert Grows(s, s') by { StepGrows(s, Publish(d, t, key, body)); }
      PublishEffect(s, d, t, key, body);
      forall e, f | Due(s', e, f) && !Due(s, e, f) ensures e.src == d && f == Feed(m) {
        if e.src == d {
          DueSnoc(s, s', e, m, f);
        }
      }
      NewsCovered(s, s', Job(d, Feed(m), None, true));
    }
  }

  lemma ReceiveRregCovered(s: State, from: string, to: string, t: string, reg: TypeReg)
    requires Covered(s) && to in s.nodes && FrameOk(s, from, Rreg(t, reg))
    ensures Covered(Receive(s, from, to, Rreg(t, reg))) && Knows(Receive(s, from, to, Rreg(t, reg)), to, Rreg(t, reg))
  {
    var f, types := Rreg(t, reg), s.nodes[to].reg.types;
    var s' := Receive(s, from, to, f);
    ApplyDescends(types, t, reg);
    if Settled(types, t, reg) {
      assert s' == s;
    } else {
      assert Grows(s, s') by { ReceiveGrows(s, from, to, f); }
      KnowsGrows(s, s', from, f);
      NewsCovered(s, s', Job(to, f, Some(from), true));
    }
  }

  /** A new message is due on the links of the daemon that accepts it, and its job covers it. */
  lemma AcceptedCovered(s: State, s': State, from: string, to: string, m: Message)
    requires Covered(s) && Grows(s, s') && to in s.nodes && Knows(s', from, Feed(m))
    requires s'.links == s.links && s'.jobs == s.jobs + [Job(to, Feed(m), Some(from), false)]
    requires s'.nodes[to].reg.accepted == s.nodes[to].reg.accepted + [m]
    requires s'.nodes[to].reg.types == s.nodes[to].reg.types
    requires forall d :: d in s.nodes && d != to ==> s'.nodes[d] == s.nodes[d]
    ensures Covered(s')
  {
    forall e, g | Due(s', e, g) && !Due(s, e, g) ensures e.src == to && g == Feed(m) {
      if e.src == to {
        DueSnoc(s, s', e, m, g);
      }
    }
    NewsCovered(s, s', Job(to, Feed(m), Some(from), false));
  }

  lemma ReceiveFeedCovered(s: State, from: string, to: string, m: Message)
    requires Covered(s) && MessagesOk(s) && to in s.nodes && FrameOk(s, from, Feed(m))
    requires BodySize(m.body) <= s.nodes[to].maxBytes
    ensures Covered(Receive(s, from, to, Feed(m))) && Knows(Receive(s, from, to, Feed(m)), to, Feed(m))
  {
    hide Covered, MessagesOk;
    var s' := Receive(s, from, to, Feed(m));
    if m.msgId in s.nodes[to].reg.seen.order {
      DuplicateWasAccepted(s, to, m);
      assert s' == s;
    } else {
      assert Grows(s, s') by { ReceiveGrows(s, from, to, Feed(m)); }
      KnowsGrows(s, s', from, Feed(m));
      AcceptedCovered(s, s', from, to, m);
    }
  }

  lemma ReceiveCovered(s: State, from: string, to: string, f: Frame)
    requires Covered(s) && MessagesOk(s) && to in s.nodes && FrameOk(s, from, f)
    ensures Covered(Receive(s, from, to, f)) && Arrived(Receive(s, from, to, f), to, f)
  {
    if f.Rreg? {
      ReceiveRregCovered(s, from, to, f.typeName, f.reg);
    } else if BodySize(f.msg.body) <= s.nodes[to].maxBytes {
      ReceiveFeedCovered(s, from, to, f.msg);
    }
  }

  // --- steps that move frames ------------------------------------------------------------------

  lemma RemoveAtKeeps<T>(xs: seq<T>, i: nat, x: T)
    requires i < |xs| && x in xs && x != xs[i]
    ensures x in RemoveAt(xs, i)
  {
    assert xs == xs[..i] + [xs[i]] + xs[i + 1..];
  }

  lemma SendCovered(s: State, i: nat)
    requires Covered(s) && i < |s.jobs|
    ensures Covered(SendAt(s, i))
  {
    var s', j := SendAt(s, i), s.jobs[i];
    GrowsByNone(s, s');
    forall e, f | e in s'.links && Tracked(s, e, f) ensures Tracked(s', e, f) {
      EnqueueHolds(s.links[e], j.frame, f);
      if !Holds(s.links[e], f) && f !in s.links[e].refused {
        var k :| k in s.jobs && Carries(k, e, f);
        if k != j {
          RemoveAtKeeps(s.jobs, i, k);
          assert k in s'.jobs;
        }
      }
    }
    NothingNewCovered(s, s');
  }

  lemma FanCovered(s: State, i: nat)
    requires Covered(s) && Enabled(s, FanJob(i))
    ensures Covered(FanAt(s, i))
  {
    var s', j := FanAt(s, i), s.jobs[i];
    StepGrows(s, FanJob(i));
    forall e, f | e in s'.links && Tracked(s, e, f) ensures Tracked(s', e, f) {
      if !Holds(s.links[e], f) && f !in s.links[e].refused {
        var k :| k in s.jobs && Carries(k, e, f);
        var n :| 0 <= n < |s.jobs| && s.jobs[n] == k;
        assert s'.jobs[n] in s'.jobs && Carries(s'.jobs[n], e, f);
      }
    }
    NothingNewCovered(s, s');
  }

  lemma ClientCovered(s: State, d: string, c: nat, op: ClientOp)
    requires Covered(s) && Enabled(s, Client(d, c, op))
    ensures Covered(Next(s, Client(d, c, op)))
  {
    StepGrows(s, Client(d, c, op));
    NothingNewCovered(s, Next(s, Client(d, c, op)));
  }

  lemma LinkMoveCovered(s: State, s': State, e: Edge)
    requires Covered(s) && e in s.links && e in s'.links
    requires s' == s.(links := s.links[e := s'.links[e]])
    requires s.links[e].refused <= s'.links[e].refused
    requires s'.links[e].read == s.links[e].read && s'.links[e].since == s.links[e].since
    requires forall f :: Holds(s.links[e], f) ==>
      Holds(s'.links[e], f) || f in s'.links[e].refused || Arrived(s', e.dst, f)
    ensures Covered(s')
  {
    GrowsByNone(s, s');
    NothingNewCovered(s, s');
  }

  /** Reading a frame that has been dealt with uncovers nothing. */
  lemma UnwireCovered(s: State, e: Edge)
    requires Covered(s) && e in s.links && s.links[e].wire != []
    requires Arrived(s, e.dst, s.links[e].wire[0])
    ensures Covered(Unwire(s, e))
  {
    var wire := s.links[e].wire;
    assert wire == [wire[0]] + wire[1..];
    LinkMoveCovered(s, Unwire(s, e), e);
  }

  lemma DeliverCovered(s: State, e: Edge)
    requires Covered(s) && InFlightOk(s) && MessagesOk(s) && Enabled(s, Deliver(e))
    ensures Covered(Next(s, Deliver(e)))
    ensures Arrived(Next(s, Deliver(e)), e.dst, s.links[e].wire[0])
  {
    var f := s.links[e].wire[0];
    UnwireInFlight(s, e);
    ReceiveCovered(s, e.src, e.dst, f);
    var mid := Receive(s, e.src, e.dst, f);
    assert mid.links == s.links;
    UnwireCovered(mid, e);
    assert Unwire(mid, e) == Receive(Unwire(s, e), e.src, e.dst, f);
  }

  lemma DeliverStaleCovered(s: State, i: nat)
    requires Covered(s) && InFlightOk(s) && MessagesOk(s) && Enabled(s, DeliverStale(i))
    ensures Covered(Next(s, DeliverStale(i)))
  {
    var p := s.stale[i];
    UnstaleInFlight(s, i);
    ReceiveCovered(s, p.src, p.dst, p.frame);
    var mid := Receive(s, p.src, p.dst, p.frame);
    var s' := Receive(Unstale(s, i), p.src, p.dst, p.frame);
    assert s' == mid.(stale := RemoveAt(s.stale, i));
    GrowsByNone(mid, s');
    NothingNewCovered(mid, s');
  }

  lemma InstallCovered(s: State, e: Edge)
    requires Covered(s) && Enabled(s, Install(e))
    ensures Covered(Next(s, Install(e)))
  {
    var s' := s.(links := s.links[e := NewLink(|s.nodes[e.src].reg.accepted|)]);
    GrowsByNone(s, s');
    forall e' | e' in s'.links ensures LinkCovered(s', e') {
      if e' != e {
        LinkStaysCovered(s, s', e');
      }
    }
  }

  /** Taking the snapshot makes every record due, and puts every record on the link. */
  lemma SnapshotCovered(s: State, e: Edge, snap: seq<Frame>)
    requires Covered(s) && InFlightOk(s) && Enabled(s, Snapshot(e, snap))
    ensures Covered(Next(s, Snapshot(e, snap)))
  {
    var s' := s.(links := s.links[e := s.links[e].(read := true, snap := snap)]);
    GrowsByNone(s, s');
    assert LinkOk(s, e);
    forall e' | e' in s'.links ensures LinkCovered(s', e') {
      LinkStaysCovered(s, s', e');
    }
  }

  lemma DownCovered(s: State, e: Edge)
    requires Covered(s) && e in s.links
    ensures Covered(Next(s, Down(e)))
  {
    var s' := Next(s, Down(e));
    GrowsByNone(s, s');
    NothingNewCovered(s, s');
  }

  lemma PushCovered(s: State, e: Edge)
    requires Covered(s) && Enabled(s, Push(e))
    ensures Covered(Next(s, Push(e)))
  {
    var s' := s.(links := s.links[e := PushSnapshot(s.links[e])]);
    forall f | Holds(s.links[e], f) ensures Holds(s'.links[e], f) || f in s'.links[e].refused {
      PushHolds(s.links[e], f);
    }
    LinkMoveCovered(s, s', e);
  }

  lemma WriteCovered(s: State, e: Edge)
    requires Covered(s) && Enabled(s, Write(e))
    ensures Covered(Next(s, Write(e)))
  {
    var s' := s.(links := s.links[e := Transmit(s.links[e])]);
    forall f | Holds(s.links[e], f) ensures Holds(s'.links[e], f) {
      TransmitHolds(s.links[e], f);
    }
    LinkMoveCovered(s, s', e);
  }

  lemma StepCovered(s: State, step: Step)
    requires Covered(s) && InFlightOk(s) && MessagesOk(s) && Enabled(s, step)
    ensures Covered(Next(s, step))
  {
    if step.Register? {
      RegisterCovered(s, step.d, step.t, step.key, step.now);
    } else if step.Publish? {
      PublishCovered(s, step.d, step.t, step.key, step.body);
    } else if step.Client? {
      ClientCovered(s, step.d, step.c, step.op);
    } else if step.FanJob? {
      FanCovered(s, step.i);
    } else if step.SendJob? {
      SendCovered(s, step.i);
    } else if step.Install? {
      InstallCovered(s, step.e);
    } else if step.Snapshot? {
      SnapshotCovered(s, step.e, step.snap);
    } else if step.Push? {
      PushCovered(s, step.e);
    } else if step.Write? {
      WriteCovered(s, step.e);
    } else if step.Deliver? {
      DeliverCovered(s, step.e);
    } else if step.Down? {
      DownCovered(s, step.e);
    } else if step.DeliverStale? {
      DeliverStaleCovered(s, step.i);
    } else {
      GrowsByNone(s, Next(s, step));
      NothingNewCovered(s, Next(s, step));
    }
  }
}
