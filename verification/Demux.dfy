/** Whatever legal interleaving of commands and event reads a client makes, every command gets
    its own reply and every push comes out once, in wire order. */
module Demux {
  import opened Replies
  import opened Clients

  function EventOf(u: Unit): seq<Event>
  {
    if u.Push? then [u.event] else []
  }

  function ReplyOf(u: Unit): seq<Response>
  {
    if u.Push? then [] else [TakenOf(u).response]
  }

  function EventsOf(us: seq<Unit>): seq<Event>
  {
    if us == [] then [] else EventOf(us[0]) + EventsOf(us[1..])
  }

  function RepliesOf(us: seq<Unit>): seq<Response>
  {
    if us == [] then [] else ReplyOf(us[0]) + RepliesOf(us[1..])
  }

  lemma {:induction false} SplitEvents(a: seq<Unit>, b: seq<Unit>)
    ensures EventsOf(a + b) == EventsOf(a) + EventsOf(b)
  {
    hide EventOf;
    if a == [] {
      assert a + b == b;
    } else {
      SplitEvents(a[1..], b);
      assert (a + b)[1..] == a[1..] + b;
      assert EventsOf(a + b) == EventOf(a[0]) + (EventsOf(a[1..]) + EventsOf(b));
    }
  }

  lemma {:induction false} SplitReplies(a: seq<Unit>, b: seq<Unit>)
    ensures RepliesOf(a + b) == RepliesOf(a) + RepliesOf(b)
  {
    hide ReplyOf;
    if a == [] {
      assert a + b == b;
    } else {
      SplitReplies(a[1..], b);
      assert (a + b)[1..] == a[1..] + b;
      assert RepliesOf(a + b) == ReplyOf(a[0]) + (RepliesOf(a[1..]) + RepliesOf(b));
    }
  }

  lemma Split(a: seq<Unit>, b: seq<Unit>)
    ensures EventsOf(a + b) == EventsOf(a) + EventsOf(b)
    ensures RepliesOf(a + b) == RepliesOf(a) + RepliesOf(b)
  {
    hide *;
    SplitEvents(a, b);
    SplitReplies(a, b);
  }

  ghost predicate Readable(us: seq<Unit>, max: nat)
  {
    forall u :: u in us ==> IsWellFormed(u) && WithinCap(u, max)
  }

  lemma ReadableTail(us: seq<Unit>, k: nat, max: nat)
    requires Readable(us, max) && k <= |us|
    ensures Readable(us[k..], max)
  {
  }

  /** The first unit comes off the stream whole. */
  lemma TakeFirst(us: seq<Unit>, max: nat)
    requires us != [] && Readable(us, max)
    ensures TakeUnit(RenderAll(us), max) == Got(TakenOf(us[0]), RenderAll(us[1..]))
  {
    assert us[0] in us;
    TakeRendered(us[0], RenderAll(us[1..]), max);
  }

  // --- a client session -----------------------------------------------------------------------------

  /** `Await` reads the reply to a command just sent; `Poll` is `next_event`. */
  datatype Op = Await | Poll

  datatype Session = Session(
    rest: string,
    pending: seq<Event>,
    responses: seq<Response>,
    events: seq<Event>,
    failed: bool)

  function RunOp(c: Session, op: Op, max: nat): Session
  {
    match op
    case Await =>
      var (got, pending) := ReadReply(c.rest, c.pending, max);
      if got.Failed? then c.(failed := true)
      else c.(rest := got.rest, pending := pending, responses := c.responses + [got.value])
    case Poll =>
      var (got, pending) := TakeEvent(c.rest, c.pending, max);
      if got.Failed? then c.(failed := true)
      else c.(rest := got.rest, pending := pending, events := c.events + [got.value])
  }

  function RunOps(c: Session, ops: seq<Op>, max: nat): Session
    decreases |ops|
  {
    if ops == [] then c else RunOps(RunOp(c, ops[0], max), ops[1..], max)
  }

  /** How many pushes come before the first reply. */
  function PushesFirst(us: seq<Unit>): (j: nat)
    ensures j <= |us|
    ensures j < |us| ==> !us[j].Push?
    ensures forall i :: 0 <= i < j ==> us[i].Push?
  {
    if us == [] || !us[0].Push? then 0 else PushesFirst(us[1..]) + 1
  }

  /** The server answers every command sent, and between commands sends nothing but pushes: an
      `Await` finds a reply, a `Poll` finds a buffered event or a push. */
  predicate Legal(us: seq<Unit>, buffered: nat, ops: seq<Op>)
    decreases |ops|
  {
    if ops == [] then true
    else if ops[0] == Await then
      var j := PushesFirst(us);
      j < |us| && Legal(us[j + 1..], buffered + j, ops[1..])
    else if buffered > 0 then Legal(us, buffered - 1, ops[1..])
    else us != [] && us[0].Push? && Legal(us[1..], 0, ops[1..])
  }

  // --- waiting for a reply ----------------------------------------------------------------------------

  /** Waiting for a reply buffers exactly the pushes before it. */
  lemma {:induction false} ReplyAfterPushes(us: seq<Unit>, pending: seq<Event>, max: nat)
    requires Readable(us, max) && PushesFirst(us) < |us|
    ensures ReadReply(RenderAll(us), pending, max)
         == (Got(TakenOf(us[PushesFirst(us)]).response, RenderAll(us[PushesFirst(us) + 1..])),
             pending + EventsOf(us[..PushesFirst(us)]))
  {
    hide RenderAll, TakeUnit, ReadReply, Readable;
    var j := PushesFirst(us);
    TakeFirst(us, max);
    if j == 0 {
      StopAtReply(RenderAll(us), RenderAll(us[1..]), TakenOf(us[0]).response, pending, max);
      assert pending + EventsOf(us[..0]) == pending;
    } else {
      var ev, tail := us[0].event, us[1..];
      SkipPush(RenderAll(us), RenderAll(tail), ev, pending, max);
      ReadableTail(us, 1, max);
      ReplyAfterPushes(tail, pending + [ev], max);
      assert tail[j - 1 + 1..] == us[j + 1..] && tail[j - 1] == us[j];
      HeadEvent(us, j);
      assert pending + [ev] + EventsOf(tail[..j - 1]) == pending + ([ev] + EventsOf(tail[..j - 1]));
    }
  }

  lemma HeadEvent(us: seq<Unit>, j: nat)
    requires 0 < j <= |us| && us[0].Push?
    ensures EventsOf(us[..j]) == [us[0].event] + EventsOf(us[1..][..j - 1])
  {
    assert us[..j][1..] == us[1..][..j - 1];
  }

  lemma {:induction false} OnlyPushes(us: seq<Unit>)
    requires forall i :: 0 <= i < |us| ==> us[i].Push?
    ensures |EventsOf(us)| == |us| && RepliesOf(us) == []
  {
    if us == [] {
    } else {
      OnlyPushes(us[1..]);
    }
  }

  // --- what one operation consumes -------------------------------------------------------------------

  /** From `before` to `c` exactly `done` was consumed: nothing lost, invented or reordered. */
  ghost predicate Accounts(before: Session, c: Session, done: seq<Unit>)
  {
    && !c.failed
    && c.responses == before.responses + RepliesOf(done)
    && c.events + c.pending == before.events + before.pending + EventsOf(done)
  }

  lemma AccountsNothing(c: Session)
    requires !c.failed
    ensures Accounts(c, c, [])
  {
  }

  lemma AccountsChain(a: Session, b: Session, c: Session, first: seq<Unit>, second: seq<Unit>)
    requires Accounts(a, b, first) && Accounts(b, c, second)
    ensures Accounts(a, c, first + second)
  {
    hide EventsOf, RepliesOf;
    Split(first, second);
  }

  lemma AwaitTakes(us: seq<Unit>, j: nat)
    requires j == PushesFirst(us) < |us|
    ensures EventsOf(us[..j + 1]) == EventsOf(us[..j])
    ensures RepliesOf(us[..j + 1]) == [TakenOf(us[j]).response] && |EventsOf(us[..j])| == j
  {
    assert us[..j + 1] == us[..j] + [us[j]];
    Split(us[..j], [us[j]]);
    OnlyPushes(us[..j]);
    assert [us[j]][1..] == [];
  }

  lemma AwaitAccounts(us: seq<Unit>, c: Session, max: nat)
    requires Readable(us, max) && !c.failed && c.rest == RenderAll(us) && PushesFirst(us) < |us|
    ensures Accounts(c, RunOp(c, Await, max), us[..PushesFirst(us) + 1])
    ensures RunOp(c, Await, max).rest == RenderAll(us[PushesFirst(us) + 1..])
    ensures |RunOp(c, Await, max).pending| == |c.pending| + PushesFirst(us)
  {
    hide RenderAll, ReadReply, Readable, EventsOf, RepliesOf;
    var j := PushesFirst(us);
    ReplyAfterPushes(us, c.pending, max);
    AwaitTakes(us, j);
    assert c.events + (c.pending + EventsOf(us[..j])) == c.events + c.pending + EventsOf(us[..j]);
  }

  lemma PollReadsPush(s: string, rest: string, ev: Event, max: nat)
    requires TakeUnit(s, max) == Got(Pushed(ev), rest)
    ensures TakeEvent(s, [], max) == (Got(ev, rest), [])
  {
  }

  lemma PollBuffered(c: Session, max: nat)
    requires !c.failed && c.pending != []
    ensures Accounts(c, RunOp(c, Poll, max), [])
    ensures RunOp(c, Poll, max).rest == c.rest && |RunOp(c, Poll, max).pending| == |c.pending| - 1
  {
    assert c.events + [c.pending[0]] + c.pending[1..] == c.events + c.pending + [];
  }

  lemma PollFresh(us: seq<Unit>, c: Session, max: nat)
    requires Readable(us, max) && !c.failed && c.rest == RenderAll(us)
    requires c.pending == [] && us != [] && us[0].Push?
    ensures Accounts(c, RunOp(c, Poll, max), us[..1])
    ensures RunOp(c, Poll, max).rest == RenderAll(us[1..]) && RunOp(c, Poll, max).pending == []
  {
    hide RenderAll, TakeUnit, TakeEvent, Readable;
    TakeFirst(us, max);
    PollReadsPush(RenderAll(us), RenderAll(us[1..]), us[0].event, max);
    HeadEvent(us, 1);
    OnlyPushes(us[..1]);
    assert us[1..][..0] == [];
  }

  /** One operation consumes a prefix of the units and leaves the rest on the stream. */
  lemma OpAccounts(us: seq<Unit>, c: Session, ops: seq<Op>, max: nat) returns (n: nat)
    requires Readable(us, max) && !c.failed && c.rest == RenderAll(us)
    requires ops != [] && Legal(us, |c.pending|, ops)
    ensures n <= |us| && !RunOp(c, ops[0], max).failed && Accounts(c, RunOp(c, ops[0], max), us[..n])
    ensures RunOp(c, ops[0], max).rest == RenderAll(us[n..])
    ensures Legal(us[n..], |RunOp(c, ops[0], max).pending|, ops[1..])
  {
    hide RenderAll, RunOp, Readable;
    if ops[0] == Await {
      n := PushesFirst(us) + 1;
      AwaitAccounts(us, c, max);
    } else if c.pending != [] {
      n := 0;
      PollBuffered(c, max);
      assert us[0..] == us && us[..0] == [];
    } else {
      n := 1;
      PollFresh(us, c, max);
    }
  }

  /** Over a whole session commands get their replies in order, and the events handed out,
      followed by those still buffered, are exactly the pushes on the wire so far. */
  lemma {:induction false} Demultiplexed(us: seq<Unit>, c: Session, ops: seq<Op>, max: nat)
    returns (done: seq<Unit>, left: seq<Unit>)
    requires Readable(us, max) && !c.failed && c.rest == RenderAll(us) && Legal(us, |c.pending|, ops)
    ensures us == done + left && RunOps(c, ops, max).rest == RenderAll(left)
    ensures Accounts(c, RunOps(c, ops, max), done)
    decreases |ops|
  {
    hide RenderAll, RunOp, Readable, Accounts, Legal;
    if ops == [] {
      done, left := [], us;
      AccountsNothing(c);
    } else {
      var n := OpAccounts(us, c, ops, max);
      var next := RunOp(c, ops[0], max);
      ReadableTail(us, n, max);
      var more;
      more, left := Demultiplexed(us[n..], next, ops[1..], max);
      done := us[..n] + more;
      AccountsChain(c, next, RunOps(next, ops[1..], max), us[..n], more);
    }
  }
}
