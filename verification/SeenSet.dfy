/** The bounded window of recently accepted message ids (loop prevention). */
module SeenSets {

  /** The last `n` elements of `xs`. */
  function Last<T>(xs: seq<T>, n: nat): seq<T>
  {
    if |xs| <= n then xs else xs[|xs| - n..]
  }

  /** The window as a value; `order` is what the deque holds. */
  datatype Seen = Seen(cap: nat, order: seq<string>)

  function NewSeen(cap: nat): Seen
  {
    Seen(if cap == 0 then 1 else cap, [])
  }

  function Insert(s: Seen, id: string): (bool, Seen)
  {
    if id in s.order then (false, s) else (true, s.(order := Last(s.order + [id], s.cap)))
  }

  /** All ids accepted while inserting `ids` into an empty window of size `cap`. */
  function Accepted(cap: nat, ids: seq<string>): seq<string>
  {
    if ids == [] then []
    else
      var before, id := Accepted(cap, ids[..|ids| - 1]), ids[|ids| - 1];
      if id in Last(before, cap) then before else before + [id]
  }

  function InsertAll(s: Seen, ids: seq<string>): Seen
  {
    if ids == [] then s else Insert(InsertAll(s, ids[..|ids| - 1]), ids[|ids| - 1]).1
  }

  /** That is a suffix of length `n`, or all if there are no more. */
  lemma LastIsSuffix<T>(xs: seq<T>, n: nat)
    ensures |Last(xs, n)| == (if |xs| < n then |xs| else n)
    ensures xs == xs[..|xs| - |Last(xs, n)|] + Last(xs, n)
  {
  }

  lemma LastOfLast<T>(xs: seq<T>, x: T, n: nat)
    ensures Last(Last(xs, n) + [x], n) == Last(xs + [x], n)
  {
    if |xs| > n {
      assert (Last(xs, n) + [x])[1..] == (xs + [x])[|xs| + 1 - n..];
    }
  }

  /** Two acceptances of the same id have at least `cap` other acceptances between them. */
  ghost predicate Spaced(accepted: seq<string>, cap: nat)
  {
    forall i, j :: 0 <= i < j < |accepted| && accepted[i] == accepted[j] ==> j - i > cap
  }

  lemma SpacedExtend(accepted: seq<string>, id: string, cap: nat)
    requires Spaced(accepted, cap)
    requires id !in Last(accepted, cap)
    ensures Spaced(accepted + [id], cap)
  {
    var w := Last(accepted, cap);
    forall i | 0 <= i < |accepted| && |accepted| - i <= cap ensures accepted[i] != id {
      assert accepted[i] == w[i - (|accepted| - |w|)];
    }
  }

  /** A window of a spaced list has no repetition. */
  lemma WindowIsDistinct(accepted: seq<string>, cap: nat)
    requires Spaced(accepted, cap)
    ensures forall i, j :: 0 <= i < j < |Last(accepted, cap)| ==> Last(accepted, cap)[i] != Last(accepted, cap)[j]
  {
    var w := Last(accepted, cap);
    var shift := |accepted| - |w|;
    forall i, j | 0 <= i < j < |w| ensures w[i] != w[j] {
      assert w[i] == accepted[shift + i] && w[j] == accepted[shift + j];
    }
  }

  /** After any inserts the window is exactly the last `cap` accepted ids, in order. */
  lemma {:induction false} WindowIsLastAccepted(cap: nat, ids: seq<string>)
    ensures var c, all := if cap == 0 then 1 else cap, Accepted(if cap == 0 then 1 else cap, ids);
            && InsertAll(NewSeen(cap), ids) == Seen(c, Last(all, c)) && Spaced(all, c)
  {
    if ids == [] {
    } else {
      var c := NewSeen(cap).cap;
      var before, id := Accepted(c, ids[..|ids| - 1]), ids[|ids| - 1];
      WindowIsLastAccepted(cap, ids[..|ids| - 1]);
      LastOfLast(before, id, c);
      if id !in Last(before, c) {
        SpacedExtend(before, id, c);
      }
    }
  }

  /** The hash set and the deque, updated in place. */
  class SeenSet {
    const cap: nat
    var ids: set<string>
    var order: seq<string>
    ghost var accepted: seq<string>

    ghost predicate Valid()
      reads this
    {
      && cap >= 1
      && Spaced(accepted, cap)
      && order == Last(accepted, cap)
      && ids == (set id | id in order)
    }

    ghost function State(): Seen
      reads this
    {
      Seen(cap, order)
    }

    constructor (cap: nat)
      ensures Valid() && State() == NewSeen(cap) && accepted == []
    {
      this.cap := if cap == 0 then 1 else cap;
      ids, order, accepted := {}, [], [];
    }

    /** True iff `id` is not among the last `cap` accepted ids, which then include it. */
    method Add(id: string) returns (isNew: bool)
      requires Valid()
      modifies this
      ensures Valid()
      ensures isNew <==> id !in Last(old(accepted), cap)
      ensures (isNew, State()) == Insert(old(State()), id)
      ensures accepted == if isNew then old(accepted) + [id] else old(accepted)
    {
      if id in ids {
        return false;
      }
      SpacedExtend(accepted, id, cap);
      LastOfLast(accepted, id, cap);
      WindowIsDistinct(accepted, cap);
      accepted := accepted + [id];
      ids := ids + {id};
      order := order + [id];
      while |order| > cap
        invariant accepted == old(accepted) + [id]
        invariant Last(order, cap) == Last(old(order) + [id], cap)
        invariant forall i, j :: 0 <= i < j < |order| ==> order[i] != order[j]
        invariant ids == (set x | x in order)
      {
        var oldest := order[0];
        assert order == [oldest] + order[1..];
        order := order[1..];
        ids := ids - {oldest};
      }
      return true;
    }
  }
}
