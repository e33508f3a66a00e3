/** When a connection loses messages: exactly those offered while its queue was full. */
module Backlog {
  import opened Messages
  import opened Outbound
  import opened Registries
  import opened Cluster
  import opened Delivery

  // --- one step ---------------------------------------------------------------------------------------

  /** All that can happen to a queue in one step. */
  ghost predicate QueueMove(q: Queue, q': Queue)
  {
    || q' == q || q' == Close(q)
    || (exists m :: q' == Offer(q, m))
    || (q.items != [] && q' == Take(q))
    || (exists notices :: Drains(notices, q.drops) && q' == Flush(q, notices))
  }

  ghost predicate Has(s: State, d: string, c: nat)
  {
    d in s.nodes && c in s.nodes[d].reg.conns
  }

  function QueueOf(s: State, d: string, c: nat): Queue
    requires d in s.nodes && c in s.nodes[d].reg.conns
  {
    s.nodes[d].reg.conns[c]
  }

  lemma FanMoves(r: RegState, m: Message, c: nat)
    requires c in r.conns
    ensures c in FanOut(r, m).conns && QueueMove(r.conns[c], FanOut(r, m).conns[c])
  {
    hide Offer;
    assert FanOut(r, m).conns[c] == Offer(r.conns[c], m) || FanOut(r, m).conns[c] == r.conns[c];
  }

  lemma PublishMoves(r: RegState, t: string, key: string, body: seq<string>, c: nat)
    requires c in r.conns
    ensures c in PublishStep(r, t, key, body).conns
    ensures QueueMove(r.conns[c], PublishStep(r, t, key, body).conns[c])
  {
    hide QueueMove, FanOut;
    if Authorize(r.types, t, key) == Authorized {
      var m := NextMessage(r, t, body);
      FanMoves(Accept(r.(nextSeq := r.nextSeq + 1), m).1, m, c);
    } else {
      Stays(r.conns[c]);
    }
  }

  lemma Stays(q: Queue)
    ensures QueueMove(q, q)
  {
  }

  lemma DoMoves(n: Daemon, k: nat, op: ClientOp, c: nat)
    requires CanDo(n, k, op) && c in n.reg.conns
    ensures c in Do(n, k, op).reg.conns && QueueMove(n.reg.conns[c], Do(n, k, op).reg.conns[c])
  {
    hide Take, Flush, Close, Subscribe, Unsubscribe, RemoveConn;
  }

  lemma StepMoves(s: State, step: Step, d: string, c: nat)
    requires Enabled(s, step) && Has(s, d, c)
    ensures Has(Next(s, step), d, c) && QueueMove(QueueOf(s, d, c), QueueOf(Next(s, step), d, c))
  {
    hide QueueMove, FanOut, Do, CanDo, PublishStep, RegisterAt, Receive, Broadcast, Parcels;
    Stays(QueueOf(s, d, c));
    if step.FanJob? {
      FanMoves(s.nodes[d].reg, s.jobs[step.i].frame.msg, c);
    } else if step.Publish? {
      PublishMoves(s.nodes[d].reg, step.t, step.key, step.body, c);
    } else if step.Client? {
      if step.d == d {
        DoMoves(s.nodes[d], step.c, step.op, c);
      }
    } else if step.Deliver? {
      ReceiveStays(Unwire(s, step.e), step.e.src, step.e.dst, s.links[step.e].wire[0], d);
    } else if step.DeliverStale? {
      var p := s.stale[step.i];
      ReceiveStays(Unstale(s, step.i), p.src, p.dst, p.frame, d);
    } else if step.Register? {
      RegisterStays(s, step.d, step.t, step.key, step.now, d);
    }
  }

  lemma ReceiveStays(s: State, from: string, to: string, f: Frame, d: string)
    requires to in s.nodes && d in s.nodes
    ensures d in Receive(s, from, to, f).nodes && Receive(s, from, to, f).nodes[d].reg.conns == s.nodes[d].reg.conns
  {
  }

  lemma RegisterStays(s: State, at: string, t: string, key: string, now: nat, d: string)
    requires at in s.nodes && d in s.nodes
    ensures d in RegisterAt(s, at, t, key, now).nodes
    ensures RegisterAt(s, at, t, key, now).nodes[d].reg.conns == s.nodes[d].reg.conns
  {
  }

  /** A connection appears with an empty queue. */
  lemma OpensEmpty(s: State, step: Step, d: string, c: nat)
    requires Enabled(s, step) && !Has(s, d, c) && Has(Next(s, step), d, c)
    ensures exists depth :: QueueOf(Next(s, step), d, c) == NewQueue(depth)
  {
    hide FanOut, PublishStep, RegisterAt, Receive, Broadcast, Parcels;
    if step.FanJob? {
      FanKeepsKeys(s.nodes[s.jobs[step.i].at].reg, s.jobs[step.i].frame.msg);
    } else if step.Publish? {
      PublishKeepsKeys(s.nodes[step.d].reg, step.t, step.key, step.body);
    } else if step.Deliver? {
      var e := step.e;
      ReceiveKeepsNodes(Unwire(s, e), e.src, e.dst, s.links[e].wire[0]);
      ReceiveStays(Unwire(s, e), e.src, e.dst, s.links[e].wire[0], d);
    } else if step.DeliverStale? {
      var p := s.stale[step.i];
      ReceiveKeepsNodes(Unstale(s, step.i), p.src, p.dst, p.frame);
      ReceiveStays(Unstale(s, step.i), p.src, p.dst, p.frame, d);
    } else if step.Register? {
      RegisterKeepsNodes(s, step.d, step.t, step.key, step.now);
      RegisterStays(s, step.d, step.t, step.key, step.now, d);
    } else if step.Client? {
      assert step.op.Open? && step.c == c && QueueOf(Next(s, step), d, c) == NewQueue(step.op.depth);
    }
  }

  lemma FanKeepsKeys(r: RegState, m: Message)
    ensures FanOut(r, m).conns.Keys == r.conns.Keys
  {
  }

  lemma PublishKeepsKeys(r: RegState, t: string, key: string, body: seq<string>)
    ensures PublishStep(r, t, key, body).conns.Keys == r.conns.Keys
  {
    hide Offer;
  }

  lemma ReceiveKeepsNodes(s: State, from: string, to: string, f: Frame)
    requires to in s.nodes
    ensures Receive(s, from, to, f).nodes.Keys == s.nodes.Keys
  {
  }

  lemma RegisterKeepsNodes(s: State, at: string, t: string, key: string, now: nat)
    requires at in s.nodes
    ensures RegisterAt(s, at, t, key, now).nodes.Keys == s.nodes.Keys
  {
  }

  // --- what was offered to a full queue -------------------------------------------------------------------

  /** What `q` was offered on the way to `q'`, if it was full. */
  function Overflow(q: Queue, q': Queue): seq<Message>
  {
    if |q.items| >= q.depth && |q'.offered| > |q.offered| then q'.offered[|q.offered|..] else []
  }

  /** The messages that connection `c` of `d` was offered up to state `i` while its queue was full. */
  ghost function Refused(run: seq<State>, i: nat, d: string, c: nat): seq<Message>
    requires i < |run|
  {
    if i == 0 || !Has(run[i - 1], d, c) || !Has(run[i], d, c) then []
    else Refused(run, i - 1, d, c) + Overflow(QueueOf(run[i - 1], d, c), QueueOf(run[i], d, c))
  }

  /** Nothing was lost: what was offered is written or queued, in order. */
  ghost predicate Lossless(q: Queue)
  {
    q.drops == map[] && q.noticed == [] && q.written + q.items == q.offered
  }

  /** The notices written and the counters pending are those of `refused`. */
  ghost predicate Accounts(q: Queue, refused: seq<Message>)
  {
    && (forall t :: CountType(refused, t) == DropCount(q.drops, t) + NoticedCount(q.noticed, t))
    && (refused == [] ==> Lossless(q))
    && (refused != [] ==> |q.offered| > q.depth)
  }

  lemma {:induction false} SubsequenceLength<T>(a: seq<T>, b: seq<T>)
    requires Subsequence(a, b)
    ensures |a| <= |b|
  {
    if a == [] || b == [] {
    } else if Subsequence(a, b[..|b| - 1]) {
      SubsequenceLength(a, b[..|b| - 1]);
    } else {
      SubsequenceLength(a[..|a| - 1], b[..|b| - 1]);
    }
  }

  lemma OfferAccounts(q: Queue, m: Message, refused: seq<Message>)
    requires Accounts(q, refused) && Conserved(q)
    ensures Accounts(Offer(q, m), refused + Overflow(q, Offer(q, m)))
  {
    hide Subsequence, CountType, NoticedCount;
    SubsequenceLength(q.written + q.items, q.offered);
    if q.open && |q.items| >= q.depth {
      assert Offer(q, m).offered[|q.offered|..] == [m];
      forall t ensures CountType(refused + [m], t) == CountType(refused, t) + if m.typeName == t then 1 else 0 {
        CountTypeSnoc(refused, m, t);
      }
    } else {
      assert refused + [] == refused;
      assert q.written + (q.items + [m]) == q.written + q.items + [m];
    }
  }

  lemma TakeAccounts(q: Queue, refused: seq<Message>)
    requires Accounts(q, refused) && q.items != []
    ensures Accounts(Take(q), refused)
  {
    hide CountType, NoticedCount;
    assert q.written + [q.items[0]] + q.items[1..] == q.written + q.items;
  }

  lemma FlushAccounts(q: Queue, notices: seq<Notice>, refused: seq<Message>)
    requires Accounts(q, refused) && Drains(notices, q.drops)
    ensures Accounts(Flush(q, notices), refused)
  {
    hide CountType, NoticedCount;
    forall t ensures NoticedCount(q.noticed + notices, t) + DropCount(map[], t)
                  == NoticedCount(q.noticed, t) + DropCount(q.drops, t) {
      NoticedConcat(q.noticed, notices, t);
      DrainedCount(notices, q.drops, t);
    }
  }

  lemma MoveAccounts(q: Queue, q': Queue, refused: seq<Message>)
    requires Accounts(q, refused) && Conserved(q) && QueueMove(q, q')
    ensures Accounts(q', refused + Overflow(q, q'))
  {
    hide Accounts, Conserved, Offer, Drains;
    if m :| q' == Offer(q, m) {
      OfferAccounts(q, m, refused);
    } else {
      assert refused + [] == refused;
      if q' == Close(q) {
        CloseAccounts(q, refused);
      } else if q.items != [] && q' == Take(q) {
        TakeAccounts(q, refused);
      } else if notices :| Drains(notices, q.drops) && q' == Flush(q, notices) {
        FlushAccounts(q, notices, refused);
      }
    }
  }

  lemma CloseAccounts(q: Queue, refused: seq<Message>)
    requires Accounts(q, refused)
    ensures Accounts(Close(q), refused)
  {
  }

  lemma NewAccounts(depth: nat)
    ensures Accounts(NewQueue(depth), [])
  {
  }

  /** In every state of every run, for every connection: its drop counters and notices are, type by type, the
      messages offered to it while its queue was full.  If there were none, and so at least until it has been
      offered more messages than its queue holds, all it was offered is written or queued, in order, and
      no drop is counted or noticed. */
  lemma {:induction false} DropsAreRefusals(run: seq<State>, steps: seq<Step>, i: nat, d: string, c: nat)
    requires IsRun(run, steps) && i < |run| && Has(run[i], d, c)
    ensures var q, refused := QueueOf(run[i], d, c), Refused(run, i, d, c);
            && (forall t :: CountType(refused, t) == DropCount(q.drops, t) + NoticedCount(q.noticed, t))
            && (refused == [] ==> q.drops == map[] && q.noticed == [] && q.written + q.items == q.offered)
            && (|q.offered| <= q.depth ==> refused == [])
  {
    Accounted(run, steps, i, d, c);
  }

  lemma {:induction false} Accounted(run: seq<State>, steps: seq<Step>, i: nat, d: string, c: nat)
    requires IsRun(run, steps) && i < |run| && Has(run[i], d, c)
    ensures Accounts(QueueOf(run[i], d, c), Refused(run, i, d, c))
  {
    hide Accounts, Init, Enabled, Next, QueueMove, ClientsOk;
    if i == 0 {
      NobodyAtFirst(run[0], d, c);
    } else {
      assert Enabled(run[i - 1], steps[i - 1]) && run[i - 1 + 1] == Next(run[i - 1], steps[i - 1]);
      if Has(run[i - 1], d, c) {
        Accounted(run, steps, i - 1, d, c);
        ClientsAlways(run, steps, i - 1);
        ConservedHere(run[i - 1], d, c);
        StepMoves(run[i - 1], steps[i - 1], d, c);
        MoveAccounts(QueueOf(run[i - 1], d, c), QueueOf(run[i], d, c), Refused(run, i - 1, d, c));
      } else {
        OpensEmpty(run[i - 1], steps[i - 1], d, c);
        var depth :| QueueOf(run[i], d, c) == NewQueue(depth);
        NewAccounts(depth);
      }
    }
  }

  lemma NobodyAtFirst(s: State, d: string, c: nat)
    requires Init(s)
    ensures !Has(s, d, c)
  {
  }

  lemma ConservedHere(s: State, d: string, c: nat)
    requires AllClientsOk(s) && Has(s, d, c)
    ensures Conserved(QueueOf(s, d, c))
  {
    hide Conserved;
    assert QueueOk(s.nodes[d].reg, c);
  }
}
