/** Ownership converges: once registrations have stopped moving, daemons joined by links hold the same
    record for every type, the lowest ever registered, exactly when no refused record is missing. */
module Convergence {
  import opened Ownership
  import opened Cluster
  import opened Invariants
  import opened Coverage

  ghost predicate Inv(s: State)
  {
    InFlightOk(s) && MessagesOk(s) && ClaimsOk(s) && Covered(s) && RefusedOk(s)
  }

  /** Daemon ids are the configured ones and every window has room for an id. */
  ghost predicate ProperStart(s: State)
  {
    Init(s) && forall d :: d in s.nodes ==> s.nodes[d].reg.seen.cap >= 1
  }

  lemma StartsWell(s: State)
    requires ProperStart(s)
    ensures Inv(s)
  {
    forall d | d in s.nodes ensures DaemonOk(s, d) {}
  }

  lemma StepKeeps(s: State, step: Step)
    requires Inv(s) && Enabled(s, step)
    ensures Inv(Next(s, step))
  {
    StepMessages(s, step);
    StepClaims(s, step);
    StepInFlight(s, step);
    StepCovered(s, step);
    StepRefused(s, step);
  }

  /** The invariant holds in every state of every run. */
  lemma {:induction false} Always(run: seq<State>, steps: seq<Step>, i: nat)
    requires IsRun(run, steps) && ProperStart(run[0]) && i < |run|
    ensures Inv(run[i])
  {
    if i == 0 {
      StartsWell(run[0]);
    } else {
      Always(run, steps, i - 1);
      assert Enabled(run[i - 1], steps[i - 1]) && run[i - 1 + 1] == Next(run[i - 1], steps[i - 1]);
      StepKeeps(run[i - 1], steps[i - 1]);
    }
  }

  // --- paths of links ------------------------------------------------------------------------

  ghost predicate IsPath(s: State, via: set<Edge>, path: seq<string>)
  {
    && path != []
    && (forall k :: 0 <= k < |path| ==> path[k] in s.nodes)
    && (forall k :: 0 <= k < |path| - 1 ==> Hop(path, k) in via)
  }

  function Hop(path: seq<string>, k: nat): Edge
    requires k + 1 < |path|
  {
    Edge(path[k], path[k + 1])
  }

  ghost predicate Joined(s: State, via: set<Edge>, u: string, v: string)
  {
    exists path :: IsPath(s, via, path) && path[0] == u && path[|path| - 1] == v
  }

  ghost predicate StronglyConnected(s: State, via: set<Edge>)
  {
    forall u, v :: u in s.nodes && v in s.nodes ==> Joined(s, via, u, v)
  }

  /** No registration is pending, or in flight on these links, and their snapshots are taken. */
  ghost predicate QuietOn(s: State, via: set<Edge>)
  {
    && via <= s.links.Keys
    && (forall e :: e in via ==> s.links[e].read)
    && (forall e, f :: e in via && Holds(s.links[e], f) ==> f.Feed?)
    && (forall j :: j in s.jobs ==> j.frame.Feed?)
  }

  /** Whatever record a full queue turned away on these links since they came up, the far end has by
      now learned one at least as low. */
  ghost predicate RefusedSettled(s: State, via: set<Edge>)
    requires via <= s.links.Keys
  {
    forall e, t, reg :: e in via && Rreg(t, reg) in s.links[e].refused ==> SettledAt(s, e.dst, t, reg)
  }

  ghost predicate SettledAt(s: State, d: string, t: string, reg: TypeReg)
  {
    d in s.nodes && Settled(s.nodes[d].reg.types, t, reg)
  }

  /** The links that are up and have turned nothing away. */
  function Lossless(s: State): (via: set<Edge>)
    ensures via <= s.links.Keys
  {
    set e | e in s.links && s.links[e].refused == {}
  }

  /** The lowest record ever registered for `t`. */
  ghost predicate IsLowestClaim(s: State, t: string, reg: TypeReg)
  {
    Claim(t, reg) in s.registered && forall c :: c in s.registered && c.typeName == t ==> AtMost(reg, c.reg)
  }

  /** Daemon `d` holds, for exactly the registered types, the lowest record ever registered. */
  ghost predicate HoldsLowest(s: State, d: string)
    requires d in s.nodes
  {
    && (forall t :: t in s.nodes[d].reg.types ==> IsLowestClaim(s, t, s.nodes[d].reg.types[t]))
    && (forall c :: c in s.registered ==> c.typeName in s.nodes[d].reg.types)
  }

  ghost predicate Converged(s: State)
  {
    && (forall d :: d in s.nodes ==> HoldsLowest(s, d))
    && (forall d, e :: d in s.nodes && e in s.nodes ==> s.nodes[d].reg.types == s.nodes[e].reg.types)
  }

  lemma AcrossLink(s: State, via: set<Edge>, e: Edge, t: string)
    requires Inv(s) && QuietOn(s, via) && RefusedSettled(s, via) && e in via && e.src in s.nodes
    requires t in s.nodes[e.src].reg.types
    ensures SettledAt(s, e.dst, t, s.nodes[e.src].reg.types[t])
  {
    var f := Rreg(t, s.nodes[e.src].reg.types[t]);
    assert LinkCovered(s, e) && Due(s, e, f);
    assert !InTransit(s, e, f);
  }

  lemma PathTail(s: State, via: set<Edge>, path: seq<string>)
    requires IsPath(s, via, path) && |path| > 1
    ensures Edge(path[0], path[1]) in via && IsPath(s, via, path[1..])
  {
    assert Hop(path, 0) in via;
    forall k | 0 <= k < |path| - 2 ensures Hop(path[1..], k) in via {
      assert Hop(path, k + 1) in via;
    }
  }

  /** Across each of these links the record for `t` only gets lower. */
  ghost predicate Downhill(s: State, via: set<Edge>, t: string)
  {
    forall e :: e in via && e.src in s.nodes && t in s.nodes[e.src].reg.types ==>
      SettledAt(s, e.dst, t, s.nodes[e.src].reg.types[t])
  }

  lemma {:induction false} AlongPath(s: State, via: set<Edge>, path: seq<string>, t: string)
    requires Downhill(s, via, t) && IsPath(s, via, path) && t in s.nodes[path[0]].reg.types
    ensures Settled(s.nodes[path[|path| - 1]].reg.types, t, s.nodes[path[0]].reg.types[t])
    decreases |path|
  {
    var first := s.nodes[path[0]].reg.types[t];
    if |path| == 1 {
      AtMostReflexive(first);
    } else {
      PathTail(s, via, path);
      AlongPath(s, via, path[1..], t);
      AtMostTransitive(s.nodes[path[|path| - 1]].reg.types[t], s.nodes[path[1]].reg.types[t], first);
    }
  }

  lemma EveryoneSettled(s: State, via: set<Edge>, d: string, c: Claim)
    requires Inv(s) && QuietOn(s, via) && RefusedSettled(s, via) && StronglyConnected(s, via)
    requires d in s.nodes && c in s.registered
    ensures Settled(s.nodes[d].reg.types, c.typeName, c.reg)
  {
    var o := c.reg.origin;
    assert o in s.nodes && Settled(s.nodes[o].reg.types, c.typeName, c.reg);
    assert Joined(s, via, o, d);
    var path :| IsPath(s, via, path) && path[0] == o && path[|path| - 1] == d;
    assert Downhill(s, via, c.typeName) by {
      forall e | e in via && e.src in s.nodes && c.typeName in s.nodes[e.src].reg.types
        ensures SettledAt(s, e.dst, c.typeName, s.nodes[e.src].reg.types[c.typeName])
      {
        AcrossLink(s, via, e, c.typeName);
      }
    }
    AlongPath(s, via, path, c.typeName);
    AtMostTransitive(s.nodes[d].reg.types[c.typeName], s.nodes[o].reg.types[c.typeName], c.reg);
  }

  /** A daemon that has settled every claim holds the lowest ones. */
  lemma SettledIsLowest(s: State, d: string)
    requires Inv(s) && d in s.nodes
    requires forall c :: c in s.registered ==> Settled(s.nodes[d].reg.types, c.typeName, c.reg)
    ensures HoldsLowest(s, d)
  {
    forall t | t in s.nodes[d].reg.types ensures Claim(t, s.nodes[d].reg.types[t]) in s.registered {}
  }

  lemma LowestIsSame(s: State, d: string, e: string)
    requires Inv(s) && d in s.nodes && e in s.nodes && HoldsLowest(s, d) && HoldsLowest(s, e)
    ensures s.nodes[d].reg.types == s.nodes[e].reg.types
  {
    var a, b := s.nodes[d].reg.types, s.nodes[e].reg.types;
    forall t | t in a || t in b ensures t in a && t in b && a[t] == b[t] {
      if t in a {
        assert IsLowestClaim(s, t, a[t]) && Claim(t, a[t]) in s.registered;
      }
      if t in b {
        assert IsLowestClaim(s, t, b[t]) && Claim(t, b[t]) in s.registered;
      }
      AtMostAntisymmetric(a[t], b[t]);
    }
  }

  lemma RefusedIsSettled(s: State, via: set<Edge>)
    requires Inv(s) && via <= s.links.Keys && Converged(s)
    ensures RefusedSettled(s, via)
  {
    forall e, t, reg | e in via && Rreg(t, reg) in s.links[e].refused ensures SettledAt(s, e.dst, t, reg) {
      assert LinkOk(s, e) && Genuine(s, Rreg(t, reg)) && HoldsLowest(s, e.dst);
      var c := Claim(t, reg);
      assert c in s.registered && IsLowestClaim(s, t, s.nodes[e.dst].reg.types[t]);
    }
  }

  /** Quiet links that join all daemons have made them converge if and only if every record refused
      on them was learned all the same. */
  lemma QuietConvergedIff(s: State, via: set<Edge>)
    requires Inv(s) && QuietOn(s, via) && StronglyConnected(s, via)
    ensures Converged(s) <==> RefusedSettled(s, via)
  {
    if Converged(s) {
      RefusedIsSettled(s, via);
    }
    if RefusedSettled(s, via) {
      forall d | d in s.nodes ensures HoldsLowest(s, d) {
        forall c | c in s.registered ensures Settled(s.nodes[d].reg.types, c.typeName, c.reg) {
          EveryoneSettled(s, via, d, c);
        }
        SettledIsLowest(s, d);
      }
      forall d, e | d in s.nodes && e in s.nodes ensures s.nodes[d].reg.types == s.nodes[e].reg.types {
        LowestIsSame(s, d, e);
      }
    }
  }

  /** In every run: when no registration is in flight and links that are up join all daemons, every
      daemon holds the same table, the lowest record of each type, if and only if each record that a
      full queue of these links refused has been settled at the far end in some other way. */
  lemma ConvergesIff(run: seq<State>, steps: seq<Step>, via: set<Edge>)
    requires IsRun(run, steps) && ProperStart(run[0])
    requires QuietOn(run[|steps|], via) && StronglyConnected(run[|steps|], via)
    ensures Converged(run[|steps|]) <==> RefusedSettled(run[|steps|], via)
  {
    Always(run, steps, |steps|);
    QuietConvergedIff(run[|steps|], via);
  }

  /** In particular links that refused nothing are enough. */
  lemma Convergence(run: seq<State>, steps: seq<Step>)
    requires IsRun(run, steps) && ProperStart(run[0])
    requires QuietOn(run[|steps|], Lossless(run[|steps|]))
    requires StronglyConnected(run[|steps|], Lossless(run[|steps|]))
    ensures Converged(run[|steps|])
  {
    ConvergesIff(run, steps, Lossless(run[|steps|]));
  }

  // --- which record that is, in terms of time -------------------------------------------------------

  /** Every daemon knows exactly the registered types, and its entry for each is a registered record than which
      no other has a smaller timestamp, nor at the same timestamp an origin that comes first. */
  ghost predicate AllHoldEarliest(s: State)
  {
    forall d :: d in s.nodes ==> HoldsEarliest(s, s.nodes[d].reg.types)
  }

  ghost predicate HoldsEarliest(s: State, types: Table)
  {
    && (forall c :: c in s.registered ==> c.typeName in types && NoLater(types[c.typeName], c.reg))
    && (forall t :: t in types ==> Claim(t, types[t]) in s.registered)
  }

  lemma ConvergedIsEarliest(s: State)
    requires Inv(s)
    ensures Converged(s) <==> AllHoldEarliest(s)
  {
    hide AtMost, NoLater, InFlightOk, MessagesOk, Covered, RefusedOk;
    forall d | d in s.nodes ensures HoldsLowest(s, d) <==> HoldsEarliest(s, s.nodes[d].reg.types) {
      LowestIsEarliest(s, d);
    }
    if AllHoldEarliest(s) {
      forall d, e | d in s.nodes && e in s.nodes ensures s.nodes[d].reg.types == s.nodes[e].reg.types {
        LowestIsSame(s, d, e);
      }
    }
  }

  lemma LowestIsEarliest(s: State, d: string)
    requires d in s.nodes
    ensures HoldsLowest(s, d) <==> HoldsEarliest(s, s.nodes[d].reg.types)
  {
    hide AtMost, NoLater;
    var types := s.nodes[d].reg.types;
    forall c | c in s.registered && c.typeName in types
      ensures AtMost(types[c.typeName], c.reg) <==> NoLater(types[c.typeName], c.reg)
    {
      OrderIsTime(types[c.typeName], c.reg);
    }
    if HoldsLowest(s, d) {
      forall c | c in s.registered ensures c.typeName in types && NoLater(types[c.typeName], c.reg) {
        assert IsLowestClaim(s, c.typeName, types[c.typeName]);
      }
      forall t | t in types ensures Claim(t, types[t]) in s.registered {
        assert IsLowestClaim(s, t, types[t]);
      }
    }
  }

  /** What a quiet cluster holds, in terms of time: everywhere the registration that came first, ties going to
      the daemon that comes first, if and only if no refused record is missing. */
  lemma FirstRegistrationWins(run: seq<State>, steps: seq<Step>, via: set<Edge>)
    requires IsRun(run, steps) && ProperStart(run[0])
    requires QuietOn(run[|steps|], via) && StronglyConnected(run[|steps|], via)
    ensures AllHoldEarliest(run[|steps|]) <==> RefusedSettled(run[|steps|], via)
  {
    hide Converged, AllHoldEarliest, RefusedSettled, QuietOn, StronglyConnected, Inv, Init, Enabled, Next;
    Always(run, steps, |steps|);
    ConvergesIff(run, steps, via);
    ConvergedIsEarliest(run[|steps|]);
  }

  // --- runs built step by step ----------------------------------------------------------------

  /** A run that ends in `last`. */
  ghost predicate EndsIn(run: seq<State>, steps: seq<Step>, last: State)
  {
    IsRun(run, steps) && ProperStart(run[0]) && run[|steps|] == last
  }

  lemma Extend(run: seq<State>, steps: seq<Step>, last: State, step: Step) returns (run': seq<State>, steps': seq<Step>)
    requires EndsIn(run, steps, last) && Enabled(last, step)
    ensures run' == run + [Next(last, step)] && steps' == steps + [step]
    ensures EndsIn(run', steps', Next(last, step))
  {
    hide Init, Enabled, Next;
    run', steps' := run + [Next(last, step)], steps + [step];
    forall i | 0 <= i < |steps'| ensures Enabled(run'[i], steps'[i]) && run'[i + 1] == Next(run'[i], steps'[i]) {
      if i < |steps| {
        assert Enabled(run[i], steps[i]) && run[i + 1] == Next(run[i], steps[i]);
      }
    }
  }
}
