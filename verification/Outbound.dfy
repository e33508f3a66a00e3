/** A connection's bounded outbound queue, tail-drop counters and drop notices. */
module Outbound {
  import opened Messages

  datatype Notice = Notice(typeName: string, count: nat)

  type Drops = map<string, nat>

  /** One connection's outbound path.  `offered`, `written` and `noticed` are its history:
      every message handed to it, every `101` written and every `102` written. */
  datatype Queue = Queue(
    depth: nat,
    open: bool,
    items: seq<Message>,
    drops: Drops,
    offered: seq<Message>,
    written: seq<Message>,
    noticed: seq<Notice>)

  function NewQueue(depth: nat): Queue
  {
    Queue(depth, true, [], map[], [], [], [])
  }

  function DropCount(drops: Drops, t: string): nat
  {
    if t in drops then drops[t] else 0
  }

  /** `try_send`: enqueue, or count a drop when full; a closed connection gets nothing. */
  function Offer(q: Queue, m: Message): Queue
  {
    if !q.open then q
    else if |q.items| < q.depth then q.(items := q.items + [m], offered := q.offered + [m])
    else q.(drops := q.drops[m.typeName := DropCount(q.drops, m.typeName) + 1], offered := q.offered + [m])
  }

  /** The writer takes the oldest message and writes its `101`. */
  function Take(q: Queue): Queue
    requires q.items != []
  {
    q.(items := q.items[1..], written := q.written + [q.items[0]])
  }

  /** `notices` lists every drop counter once, in some order. */
  ghost predicate Drains(notices: seq<Notice>, drops: Drops)
    decreases |notices|
  {
    if notices == [] then drops == map[]
    else
      var last := notices[|notices| - 1];
      && last.typeName in drops
      && drops[last.typeName] == last.count
      && Drains(notices[..|notices| - 1], drops - {last.typeName})
  }

  /** Drain the counters and write one `102` for each. */
  function Flush(q: Queue, notices: seq<Notice>): Queue
  {
    q.(drops := map[], noticed := q.noticed + notices)
  }

  function Close(q: Queue): Queue
  {
    q.(open := false)
  }

  // --- what the queue conserves ----------------------------------------------------

  function CountType(ms: seq<Message>, t: string): nat
  {
    if ms == [] then 0
    else CountType(ms[..|ms| - 1], t) + if ms[|ms| - 1].typeName == t then 1 else 0
  }

  function NoticedCount(notices: seq<Notice>, t: string): nat
  {
    if notices == [] then 0
    else
      var last := notices[|notices| - 1];
      NoticedCount(notices[..|notices| - 1], t) + if last.typeName == t then last.count else 0
  }

  /** `a` is obtained from `b` by deleting elements. */
  ghost predicate Subsequence<T>(a: seq<T>, b: seq<T>)
  {
    if a == [] then true
    else if b == [] then false
    else
      || (a[|a| - 1] == b[|b| - 1] && Subsequence(a[..|a| - 1], b[..|b| - 1]))
      || Subsequence(a, b[..|b| - 1])
  }

  /** Every message offered was written, is queued, or is counted in a pending or sent notice. */
  ghost predicate Conserved(q: Queue)
  {
    && |q.items| <= q.depth
    && Subsequence(q.written + q.items, q.offered)
    && (forall t :: t in q.drops ==> q.drops[t] > 0)
    && (forall t :: CountType(q.offered, t)
                    == CountType(q.written, t) + CountType(q.items, t)
                       + DropCount(q.drops, t) + NoticedCount(q.noticed, t))
  }

  lemma {:induction false} CountTypeConcat(a: seq<Message>, b: seq<Message>, t: string)
    ensures CountType(a + b, t) == CountType(a, t) + CountType(b, t)
  {
    if b == [] {
      assert a + b == a;
    } else {
      assert (a + b)[..|a + b| - 1] == a + b[..|b| - 1];
      CountTypeConcat(a, b[..|b| - 1], t);
    }
  }

  lemma CountTypeSnoc(a: seq<Message>, m: Message, t: string)
    ensures CountType(a + [m], t) == CountType(a, t) + if m.typeName == t then 1 else 0
  {
    assert (a + [m])[..|a|] == a;
  }

  lemma {:induction false} NoticedConcat(a: seq<Notice>, b: seq<Notice>, t: string)
    ensures NoticedCount(a + b, t) == NoticedCount(a, t) + NoticedCount(b, t)
  {
    if b == [] {
      assert a + b == a;
    } else {
      assert (a + b)[..|a + b| - 1] == a + b[..|b| - 1];
      NoticedConcat(a, b[..|b| - 1], t);
    }
  }

  lemma {:induction false} DrainedCount(notices: seq<Notice>, drops: Drops, t: string)
    requires Drains(notices, drops)
    ensures NoticedCount(notices, t) == DropCount(drops, t)
    decreases |notices|
  {
    if notices == [] {
    } else {
      var last := notices[|notices| - 1];
      DrainedCount(notices[..|notices| - 1], drops - {last.typeName}, t);
    }
  }

  lemma DrainsSnoc(notices: seq<Notice>, drops: Drops, rest: Drops, t: string)
    requires t in rest && t in drops && rest[t] == drops[t]
    requires Drains(notices, drops - rest.Keys)
    ensures Drains(notices + [Notice(t, rest[t])], drops - (rest - {t}).Keys)
    ensures (rest - {t}).Keys < rest.Keys && |(rest - {t}).Keys| < |rest.Keys|
  {
    assert (notices + [Notice(t, rest[t])])[..|notices|] == notices;
    assert (rest - {t}).Keys == rest.Keys - {t};
    assert drops - (rest - {t}).Keys - {t} == drops - rest.Keys;
  }

  lemma SubsequenceSnoc<T>(a: seq<T>, b: seq<T>, x: T)
    requires Subsequence(a, b)
    ensures Subsequence(a + [x], b + [x])
    ensures Subsequence(a, b + [x])
  {
    assert (a + [x])[..|a|] == a;
    assert (b + [x])[..|b|] == b;
  }

  lemma NewQueueConserved(depth: nat)
    ensures Conserved(NewQueue(depth))
  {
  }

  lemma OfferCounts(q: Queue, m: Message, t: string)
    requires q.open
    ensures var r := Offer(q, m);
            && CountType(r.offered, t) - CountType(q.offered, t)
               == CountType(r.items, t) - CountType(q.items, t) + DropCount(r.drops, t) - DropCount(q.drops, t)
  {
    hide CountType;
    CountTypeSnoc(q.offered, m, t);
    CountTypeSnoc(q.items, m, t);
  }

  lemma OfferKeepsOrder(q: Queue, m: Message)
    requires Subsequence(q.written + q.items, q.offered)
    ensures var r := Offer(q, m); Subsequence(r.written + r.items, r.offered)
  {
    hide Subsequence;
    assert q.written + (q.items + [m]) == (q.written + q.items) + [m];
    SubsequenceSnoc(q.written + q.items, q.offered, m);
  }

  lemma OfferConserves(q: Queue, m: Message)
    requires Conserved(q)
    ensures Conserved(Offer(q, m))
  {
    hide Subsequence, CountType, NoticedCount, DropCount;
    if q.open {
      var r := Offer(q, m);
      OfferKeepsOrder(q, m);
      forall t ensures CountType(r.offered, t) == CountType(r.written, t) + CountType(r.items, t)
                                                  + DropCount(r.drops, t) + NoticedCount(r.noticed, t) {
        OfferCounts(q, m, t);
      }
    }
  }

  lemma TakeConserves(q: Queue)
    requires Conserved(q) && q.items != []
    ensures Conserved(Take(q))
  {
    var r := Take(q);
    assert q.items == [q.items[0]] + r.items;
    assert r.written + r.items == q.written + q.items;
    forall t ensures CountType(r.offered, t) == CountType(r.written, t) + CountType(r.items, t)
                                                + DropCount(r.drops, t) + NoticedCount(r.noticed, t) {
      CountTypeConcat(q.written, q.items, t);
      CountTypeConcat(r.written, r.items, t);
    }
  }

  lemma FlushConserves(q: Queue, notices: seq<Notice>)
    requires Conserved(q) && Drains(notices, q.drops)
    ensures Conserved(Flush(q, notices))
  {
    var r := Flush(q, notices);
    forall t ensures CountType(r.offered, t) == CountType(r.written, t) + CountType(r.items, t)
                                                + DropCount(r.drops, t) + NoticedCount(r.noticed, t) {
      NoticedConcat(q.noticed, notices, t);
      DrainedCount(notices, q.drops, t);
    }
  }

  /** `drain().collect()`: the counters as a list, in whatever order the map yields them. */
  method ListDrops(drops: Drops) returns (notices: seq<Notice>)
    ensures Drains(notices, drops)
  {
    var rest := drops;
    notices := [];
    assert drops - rest.Keys == map[];
    while rest.Keys != {}
      invariant rest.Keys <= drops.Keys
      invariant forall t :: t in rest ==> rest[t] == drops[t]
      invariant Drains(notices, drops - rest.Keys)
      decreases |rest.Keys|
    {
      var t :| t in rest.Keys;
      DrainsSnoc(notices, drops, rest, t);
      notices := notices + [Notice(t, rest[t])];
      rest := rest - {t};
    }
    assert drops - rest.Keys == drops;
  }

  /** The handle shared by the connection's task and the registry's subscriber sets. */
  class ConnHandle {
    const id: nat
    const depth: nat
    var open: bool
    var items: seq<Message>
    var drops: Drops
    /** A permit stored by `drop_notify`. */
    var notified: bool
    ghost var offered: seq<Message>
    ghost var written: seq<Message>
    ghost var noticed: seq<Notice>

    ghost function State(): Queue
      reads this
    {
      Queue(depth, open, items, drops, offered, written, noticed)
    }

    constructor (id: nat, depth: nat)
      ensures this.id == id && this.depth == depth && State() == NewQueue(depth)
    {
      this.id, this.depth, open, items, drops, notified := id, depth, true, [], map[], false;
      offered, written, noticed := [], [], [];
    }

    method RecordDrop(t: string)
      modifies this`drops, this`notified
      ensures drops == old(drops)[t := DropCount(old(drops), t) + 1] && notified
    {
      drops := drops[t := (if t in drops then drops[t] else 0) + 1];
      notified := true;
    }

    /** Offer `m` without blocking: queue it, or count it as dropped. */
    method TrySend(m: Message)
      modifies this
      ensures State() == Offer(old(State()), m)
      ensures items == old(items) + if old(open) && |old(items)| < depth then [m] else []
      ensures drops == if old(open) && |old(items)| >= depth then
                         old(drops)[m.typeName := DropCount(old(drops), m.typeName) + 1]
                       else old(drops)
      ensures old(open) && |old(items)| >= depth ==> notified
    {
      if !open {
        return;
      }
      offered := offered + [m];
      if |items| < depth {
        items := items + [m];
      } else {
        RecordDrop(m.typeName);
      }
    }

    /** The writer's receive. */
    method Receive() returns (m: Message)
      requires items != []
      modifies this
      ensures State() == Take(old(State())) && m == old(items)[0]
      ensures notified == old(notified)
    {
      m := items[0];
      items := items[1..];
      written := written + [m];
    }

    /** Drain the drop counters into the list of notices to write. */
    method DrainDrops() returns (notices: seq<Notice>)
      modifies this
      ensures Drains(notices, old(drops)) && State() == Flush(old(State()), notices)
      ensures notified == old(notified)
    {
      notices := ListDrops(drops);
      drops := map[];
      noticed := noticed + notices;
    }
  }
}
