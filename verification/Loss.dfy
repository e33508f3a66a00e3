/** What a full peer queue costs: the documented convergence "regardless of which links delivered
    which RREGs" fails in a run where a record refused by a full queue never gets through. */
module Loss {
  import opened Text
  import opened Ownership
  import opened Registries
  import opened Cluster
  import opened Convergence

  // --- a run in which a registration never arrives ----------------------------------------------------

  const RECORD := TypeReg("k", "a", 0)
  const AB := Edge("a", "b")
  const BA := Edge("b", "a")

  function TypeName(i: nat): string
  {
    Print(i, 10)
  }

  function Types(n: nat): Table
  {
    if n == 0 then map[] else Types(n - 1)[TypeName(n - 1) := RECORD]
  }

  function Frames(n: nat): seq<Frame>
    ensures |Frames(n)| == n
  {
    if n == 0 then [] else Frames(n - 1) + [Rreg(TypeName(n - 1), RECORD)]
  }

  function ClaimsOf(n: nat): set<Claim>
  {
    if n == 0 then {} else ClaimsOf(n - 1) + {Claim(TypeName(n - 1), RECORD)}
  }

  lemma {:induction false} NotYet(n: nat, i: nat)
    requires n <= i
    ensures TypeName(i) !in Types(n)
  {
    if n == 0 {
    } else {
      NotYet(n - 1, i);
      ValueOfPrint(i, 10);
      ValueOfPrint(n - 1, 10);
    }
  }

  function DaemonWith(id: string, types: Table): Daemon
  {
    Daemon(NewRegistry(id, 1).(types := types), 0, map[])
  }

  /** `a` has registered `n` types, `b` has learned `k` of them, `queue` is on its way and `refused` was turned away. */
  function Stage(n: nat, k: nat, queue: seq<Frame>, refused: set<Frame>): State
  {
    State(map["a" := DaemonWith("a", Types(n)), "b" := DaemonWith("b", Types(k))],
          map[AB := Link(true, [], queue, [], refused, 0), BA := Link(true, [], [], [], {}, 0)],
          [], [], ClaimsOf(n), {})
  }

  /** Two fresh daemons, linked both ways. */
  lemma Started() returns (run: seq<State>, steps: seq<Step>)
    ensures EndsIn(run, steps, Stage(0, 0, [], {}))
  {
    hide Receive, Broadcast, RegisterAt, PublishAt, Do, CanDo;
    var s0 := Stage(0, 0, [], {}).(links := map[]);
    var s1 := Next(s0, Install(AB));
    var s2 := Next(s1, Snapshot(AB, []));
    var s3 := Next(s2, Install(BA));
    run, steps := [s0], [];
    assert EndsIn(run, steps, s0);
    run, steps := Extend(run, steps, s0, Install(AB));
    run, steps := Extend(run, steps, s1, Snapshot(AB, []));
    run, steps := Extend(run, steps, s2, Install(BA));
    run, steps := Extend(run, steps, s3, Snapshot(BA, []));
    assert Next(s3, Snapshot(BA, [])).links == Stage(0, 0, [], {}).links;
  }

  /** One REGISTER at `a` and its broadcast. */
  lemma OneMore(run: seq<State>, steps: seq<Step>, n: nat, queue: seq<Frame>, refused: set<Frame>)
    returns (run': seq<State>, steps': seq<Step>)
    requires EndsIn(run, steps, Stage(n, 0, queue, refused))
    ensures EndsIn(run', steps',
                   if |queue| < PEER_QUEUE_DEPTH then Stage(n + 1, 0, queue + [Rreg(TypeName(n), RECORD)], refused)
                   else Stage(n + 1, 0, queue, refused + {Rreg(TypeName(n), RECORD)}))
  {
    hide EndsIn;
    var s, step := Stage(n, 0, queue, refused), Register("a", TypeName(n), "k", 0);
    NotYet(n, n);
    RegisterStage(n, queue, refused);
    SendStage(n, queue, refused);
    run', steps' := Extend(run, steps, s, step);
    run', steps' := Extend(run', steps', Pending(n, queue, refused), SendJob(0));
  }

  /** `a` has registered type `n` and not broadcast it yet. */
  function Pending(n: nat, queue: seq<Frame>, refused: set<Frame>): State
  {
    Stage(n, 0, queue, refused).(
      nodes := map["a" := DaemonWith("a", Types(n + 1)), "b" := DaemonWith("b", Types(0))],
      jobs := [Job("a", Rreg(TypeName(n), RECORD), None, true)],
      registered := ClaimsOf(n + 1))
  }

  lemma RegisterStage(n: nat, queue: seq<Frame>, refused: set<Frame>)
    requires TypeName(n) !in Types(n)
    ensures Next(Stage(n, 0, queue, refused), Register("a", TypeName(n), "k", 0)) == Pending(n, queue, refused)
  {
    hide TypeName;
    var s, p := Stage(n, 0, queue, refused), Pending(n, queue, refused);
    var after := RegisterAt(s, "a", TypeName(n), "k", 0);
    assert after.nodes == s.nodes["a" := DaemonWith("a", Types(n + 1))] == p.nodes;
    assert after.jobs == [] + p.jobs == p.jobs;
  }

  lemma SendStage(n: nat, queue: seq<Frame>, refused: set<Frame>)
    ensures Enabled(Pending(n, queue, refused), SendJob(0))
    ensures Next(Pending(n, queue, refused), SendJob(0))
         == if |queue| < PEER_QUEUE_DEPTH then Stage(n + 1, 0, queue + [Rreg(TypeName(n), RECORD)], refused)
            else Stage(n + 1, 0, queue, refused + {Rreg(TypeName(n), RECORD)})
  {
    hide TypeName, Types, ClaimsOf;
    var p := Pending(n, queue, refused);
    assert RemoveAt(p.jobs, 0) == [];
    OnlyToB(p.links, Rreg(TypeName(n), RECORD));
  }

  lemma OnlyToB(links: map<Edge, Link>, f: Frame)
    requires links.Keys == {AB, BA}
    ensures Broadcast(links, "a", f, None) == map[AB := Enqueue(links[AB], f), BA := links[BA]]
  {
  }

  /** Registrations up to the depth of the queue all fit. */
  lemma {:induction false} Filled(n: nat) returns (run: seq<State>, steps: seq<Step>)
    requires n <= PEER_QUEUE_DEPTH
    ensures EndsIn(run, steps, Stage(n, 0, Frames(n), {}))
  {
    hide EndsIn, Stage;
    if n == 0 {
      run, steps := Started();
    } else {
      run, steps := Filled(n - 1);
      run, steps := OneMore(run, steps, n - 1, Frames(n - 1), {});
    }
  }

  /** `b` has read the frame of type `k` and not broadcast it yet. */
  function Learning(n: nat, k: nat, queue: seq<Frame>, lost: set<Frame>): State
  {
    Stage(n, k + 1, queue, lost).(jobs := [Job("b", Rreg(TypeName(k), RECORD), Some("a"), true)])
  }

  function OnTheWire(n: nat, k: nat, f: Frame, queue: seq<Frame>, lost: set<Frame>): State
  {
    Stage(n, k, queue, lost).(
      links := map[AB := Link(true, [], queue, [f], lost, 0), BA := Link(true, [], [], [], {}, 0)])
  }

  lemma WriteStage(n: nat, k: nat, f: Frame, queue: seq<Frame>, lost: set<Frame>)
    ensures Enabled(Stage(n, k, [f] + queue, lost), Write(AB))
    ensures Next(Stage(n, k, [f] + queue, lost), Write(AB)) == OnTheWire(n, k, f, queue, lost)
  {
    hide TypeName, Types, ClaimsOf;
    var s := Stage(n, k, [f] + queue, lost);
    assert ([f] + queue)[1..] == queue && [] + [f] == [f];
    assert s.links[AB := Transmit(s.links[AB])] == map[AB := Transmit(s.links[AB]), BA := s.links[BA]];
  }

  lemma DeliverStage(n: nat, k: nat, queue: seq<Frame>, lost: set<Frame>)
    requires TypeName(k) !in Types(k)
    ensures Enabled(OnTheWire(n, k, Rreg(TypeName(k), RECORD), queue, lost), Deliver(AB))
    ensures Next(OnTheWire(n, k, Rreg(TypeName(k), RECORD), queue, lost), Deliver(AB)) == Learning(n, k, queue, lost)
  {
    hide TypeName, ClaimsOf;
    var f := Rreg(TypeName(k), RECORD);
    var s := OnTheWire(n, k, f, queue, lost);
    var mid := Unwire(s, AB);
    assert mid == Stage(n, k, queue, lost) by {
      assert [f][1..] == [];
      assert mid.links == map[AB := Link(true, [], queue, [], lost, 0), BA := Link(true, [], [], [], {}, 0)];
    }
    ReceiveStage(n, k, queue, lost);
  }

  lemma ReceiveStage(n: nat, k: nat, queue: seq<Frame>, lost: set<Frame>)
    requires TypeName(k) !in Types(k)
    ensures Receive(Stage(n, k, queue, lost), "a", "b", Rreg(TypeName(k), RECORD)) == Learning(n, k, queue, lost)
  {
    hide TypeName, ClaimsOf;
    var s := Stage(n, k, queue, lost);
    assert s.nodes["b" := DaemonWith("b", Types(k + 1))] == Learning(n, k, queue, lost).nodes;
    assert [] + Learning(n, k, queue, lost).jobs == Learning(n, k, queue, lost).jobs;
  }

  lemma EchoStage(n: nat, k: nat, queue: seq<Frame>, lost: set<Frame>)
    ensures Enabled(Learning(n, k, queue, lost), SendJob(0))
    ensures Next(Learning(n, k, queue, lost), SendJob(0)) == Stage(n, k + 1, queue, lost)
  {
    hide TypeName, Types, ClaimsOf;
    var p := Learning(n, k, queue, lost);
    assert RemoveAt(p.jobs, 0) == [];
    assert Broadcast(p.links, "b", p.jobs[0].frame, Some("a")) == p.links;
  }

  /** One queued record written, delivered and not sent back. */
  lemma OneLearned(run: seq<State>, steps: seq<Step>, n: nat, k: nat, queue: seq<Frame>, lost: set<Frame>)
    returns (run': seq<State>, steps': seq<Step>)
    requires EndsIn(run, steps, Stage(n, k, [Rreg(TypeName(k), RECORD)] + queue, lost))
    ensures EndsIn(run', steps', Stage(n, k + 1, queue, lost))
  {
    hide EndsIn, Enabled, Next, Stage, OnTheWire, Learning;
    var f := Rreg(TypeName(k), RECORD);
    NotYet(k, k);
    WriteStage(n, k, f, queue, lost);
    DeliverStage(n, k, queue, lost);
    EchoStage(n, k, queue, lost);
    run', steps' := Extend(run, steps, Stage(n, k, [f] + queue, lost), Write(AB));
    run', steps' := Extend(run', steps', OnTheWire(n, k, f, queue, lost), Deliver(AB));
    run', steps' := Extend(run', steps', Learning(n, k, queue, lost), SendJob(0));
  }

  lemma {:induction false} FrameAt(m: nat, k: nat)
    requires k < m
    ensures Frames(m)[k..] == [Rreg(TypeName(k), RECORD)] + Frames(m)[k + 1..]
  {
    if k < m - 1 {
      FrameAt(m - 1, k);
      assert Frames(m)[k] == Frames(m - 1)[k] == Frames(m - 1)[k..][0];
    }
  }

  lemma {:induction false} Drained(run: seq<State>, steps: seq<Step>, n: nat, m: nat, k: nat, lost: set<Frame>)
    returns (run': seq<State>, steps': seq<Step>)
    requires k <= m && EndsIn(run, steps, Stage(n, 0, Frames(m), lost))
    ensures EndsIn(run', steps', Stage(n, k, Frames(m)[k..], lost))
  {
    hide EndsIn, Stage;
    if k == 0 {
      run', steps' := run, steps;
      assert Frames(m)[0..] == Frames(m);
    } else {
      run', steps' := Drained(run, steps, n, m, k - 1, lost);
      FrameAt(m, k - 1);
      run', steps' := OneLearned(run', steps', n, k - 1, Frames(m)[k..], lost);
    }
  }

  /** Linked both ways and at rest, with one record refused that the far end never learned. */
  ghost predicate StuckApart(s: State)
  {
    && s.jobs == [] && s.stale == [] && (forall e, f :: e in s.links ==> !Holds(s.links[e], f))
    && QuietOn(s, s.links.Keys) && StronglyConnected(s, s.links.Keys) && !RefusedSettled(s, s.links.Keys)
  }

  lemma BothWays(s: State)
    requires s.nodes.Keys == {"a", "b"} && s.links.Keys == {AB, BA}
    ensures StronglyConnected(s, s.links.Keys)
  {
    forall u, v | u in s.nodes && v in s.nodes ensures Joined(s, s.links.Keys, u, v) {
      var path := if u == v then [u] else [u, v];
      assert u != v ==> Hop(path, 0) in s.links.Keys;
      assert IsPath(s, s.links.Keys, path) && path[0] == u && path[|path| - 1] == v;
    }
  }

  lemma StageIsStuck(n: nat)
    ensures StuckApart(Stage(n + 1, n, [], {Rreg(TypeName(n), RECORD)}))
  {
    hide StronglyConnected;
    var s := Stage(n + 1, n, [], {Rreg(TypeName(n), RECORD)});
    NotYet(n, n);
    assert TypeName(n) !in s.nodes["b"].reg.types;
    BothWays(s);
    assert Rreg(TypeName(n), RECORD) in s.links[AB].refused && !SettledAt(s, "b", TypeName(n), RECORD);
  }

  lemma StuckIsApart(run: seq<State>, steps: seq<Step>, last: State)
    requires EndsIn(run, steps, last) && StuckApart(last)
    ensures !Converged(last)
  {
    hide Converged, RefusedSettled, StronglyConnected;
    ConvergesIff(run, steps, last.links.Keys);
  }

  /** One registration more than a peer queue holds, broadcast before the link's writer runs, and the
      cluster comes to rest, linked both ways, without having converged. */
  lemma LossPreventsConvergence(depth: nat) returns (run: seq<State>, steps: seq<Step>)
    requires depth == 4096
    ensures IsRun(run, steps) && ProperStart(run[0])
    ensures StuckApart(run[|steps|]) && !Converged(run[|steps|])
  {
    hide Stage, Init, Enabled, Next, Converged, RefusedSettled, StronglyConnected;
    run, steps := Filled(depth);
    run, steps := OneMore(run, steps, depth, Frames(depth), {});
    var lost := {} + {Rreg(TypeName(depth), RECORD)};
    assert lost == {Rreg(TypeName(depth), RECORD)};
    run, steps := Drained(run, steps, depth + 1, depth, depth, lost);
    assert Frames(depth)[depth..] == [];
    StageIsStuck(depth);
    StuckIsApart(run, steps, Stage(depth + 1, depth, [], lost));
  }
}
