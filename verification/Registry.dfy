/** One daemon's registry: its transitions as functions, the subscription index,
    and the class that performs them in place. */
module Registries {
  import opened Text
  import opened Messages
  import opened Ownership
  import opened SeenSets
  import opened Outbound

  /** A message fanned out, with the connections subscribed at that instant. */
  datatype FanEvent = FanEvent(msg: Message, listeners: set<nat>)

  type Index = map<string, set<nat>>

  /** The registry as a value.  `accepted` (in acceptance order) and `fanned` are its history. */
  datatype RegState = RegState(
    id: string,
    nextSeq: nat,
    types: Table,
    seen: Seen,
    subs: Index,
    conns: map<nat, Queue>,
    accepted: seq<Message>,
    fanned: seq<FanEvent>)

  function NewRegistry(id: string, seenCapacity: nat): RegState
  {
    RegState(id, 1, map[], NewSeen(seenCapacity), map[], map[], [], [])
  }

  /** `<daemon-id>-<hex-seq>` */
  function MsgId(daemon: string, n: nat): string
  {
    daemon + ['-'] + Print(n, 16)
  }

  /** Distinct (daemon, number) pairs never share an id, even if daemon ids contain `-`. */
  lemma MsgIdInjective(d: string, n: nat, e: string, k: nat)
    requires MsgId(d, n) == MsgId(e, k)
    ensures d == e && n == k
  {
    PrintHasNo(n, 16, '-');
    PrintHasNo(k, 16, '-');
    SplitAtLast(d, e, Print(n, 16), Print(k, 16), '-');
    ValueOfPrint(n, 16);
    ValueOfPrint(k, 16);
  }

  // --- transitions -----------------------------------------------------------------

  function Listeners(subs: Index, t: string): set<nat>
  {
    if t in subs then subs[t] else {}
  }

  function OfferTo(conns: map<nat, Queue>, to: set<nat>, m: Message): map<nat, Queue>
  {
    map c | c in conns :: if c in to then Offer(conns[c], m) else conns[c]
  }

  /** Offer `m` to every current subscriber of its type. */
  function FanOut(r: RegState, m: Message): RegState
  {
    var to := Listeners(r.subs, m.typeName);
    r.(conns := OfferTo(r.conns, to, m),
       fanned := r.fanned + [FanEvent(m, to)])
  }

  /** Record `m` as seen; false when it is a duplicate. */
  function Accept(r: RegState, m: Message): (bool, RegState)
  {
    var (isNew, seen) := Insert(r.seen, m.msgId);
    (isNew, r.(seen := seen, accepted := if isNew then r.accepted + [m] else r.accepted))
  }

  datatype Authorization = Authorized | UnknownType | KeyMismatch

  function Authorize(types: Table, t: string, key: string): Authorization
  {
    if t !in types then UnknownType else if types[t].key != key then KeyMismatch else Authorized
  }

  function NextMessage(r: RegState, t: string, body: seq<string>): Message
  {
    Message(t, MsgId(r.id, r.nextSeq), r.id, body)
  }

  /** A local PUBLISH: authorize, number, record and fan out in one critical section. */
  function PublishStep(r: RegState, t: string, key: string, body: seq<string>): RegState
  {
    if Authorize(r.types, t, key) != Authorized then r
    else
      var m := NextMessage(r, t, body);
      FanOut(Accept(r.(nextSeq := r.nextSeq + 1), m).1, m)
  }

  function Subscribe(subs: Index, t: string, c: nat): Index
  {
    subs[t := Listeners(subs, t) + {c}]
  }

  /** An emptied type leaves the index. */
  function Unsubscribe(subs: Index, t: string, c: nat): Index
  {
    if t !in subs then subs
    else if subs[t] - {c} == {} then subs - {t}
    else subs[t := subs[t] - {c}]
  }

  function RemoveConn(subs: Index, c: nat, types: set<string>): Index
  {
    map t | t in subs && !(t in types && subs[t] - {c} == {}) :: if t in types then subs[t] - {c} else subs[t]
  }

  // --- the subscription index agrees with each connection's own set --------------------

  ghost predicate IndexAgrees(subs: Index, mySubs: map<nat, set<string>>)
  {
    && (forall t :: t in subs ==> subs[t] != {})
    && (forall t, c :: c in Listeners(subs, t) <==> c in mySubs && t in mySubs[c])
  }

  lemma SubscribeAgrees(subs: Index, mySubs: map<nat, set<string>>, t: string, c: nat)
    requires IndexAgrees(subs, mySubs) && c in mySubs
    ensures IndexAgrees(Subscribe(subs, t, c), mySubs[c := mySubs[c] + {t}])
    ensures c in Listeners(subs, t) ==> Subscribe(subs, t, c) == subs
  {
    var after, mine := Subscribe(subs, t, c), mySubs[c := mySubs[c] + {t}];
    forall u, d ensures d in Listeners(after, u) <==> d in mine && u in mine[d] {
      assert d in Listeners(subs, u) <==> d in mySubs && u in mySubs[d];
    }
    if c in Listeners(subs, t) {
      assert subs[t] + {c} == subs[t];
    }
  }

  lemma UnsubscribeAgrees(subs: Index, mySubs: map<nat, set<string>>, t: string, c: nat)
    requires IndexAgrees(subs, mySubs) && c in mySubs
    ensures IndexAgrees(Unsubscribe(subs, t, c), mySubs[c := mySubs[c] - {t}])
  {
    var after, mine := Unsubscribe(subs, t, c), mySubs[c := mySubs[c] - {t}];
    forall u, d ensures d in Listeners(after, u) <==> d in mine && u in mine[d] {
      assert d in Listeners(subs, u) <==> d in mySubs && u in mySubs[d];
    }
  }

  /** When a connection ends, removing its own types removes it from the whole index. */
  lemma RemoveConnAgrees(subs: Index, mySubs: map<nat, set<string>>, c: nat)
    requires IndexAgrees(subs, mySubs) && c in mySubs
    ensures IndexAgrees(RemoveConn(subs, c, mySubs[c]), mySubs - {c})
    ensures forall t :: c !in Listeners(RemoveConn(subs, c, mySubs[c]), t)
  {
    var after, mine := RemoveConn(subs, c, mySubs[c]), mySubs - {c};
    forall u, d ensures d in Listeners(after, u) <==> d in mine && u in mine[d] {
      assert d in Listeners(subs, u) <==> d in mySubs && u in mySubs[d];
    }
    forall t ensures c !in Listeners(after, t) {
      assert c in Listeners(subs, t) <==> t in mySubs[c];
    }
  }

  // --- the index of handles and the index of ids it stands for ---------------------------

  type HandleIndex = map<string, map<nat, ConnHandle>>

  ghost function Ids(subs: HandleIndex): Index
  {
    map t | t in subs :: subs[t].Keys
  }

  /** Every entry is the known handle of that connection. */
  ghost predicate Refers(subs: HandleIndex, handles: map<nat, ConnHandle>)
  {
    forall t, c :: t in subs && c in subs[t] ==> c in handles && subs[t][c] == handles[c]
  }

  function AddHandle(subs: HandleIndex, t: string, c: nat, h: ConnHandle): HandleIndex
  {
    var old0: map<nat, ConnHandle> := if t in subs then subs[t] else map[];
    subs[t := old0[c := h]]
  }

  function DropHandle(subs: HandleIndex, t: string, c: nat): HandleIndex
  {
    if t !in subs then subs
    else if subs[t] - {c} == map[] then subs - {t}
    else subs[t := subs[t] - {c}]
  }

  lemma AddHandleIds(subs: HandleIndex, handles: map<nat, ConnHandle>, t: string, c: nat, h: ConnHandle)
    requires Refers(subs, handles) && c in handles && handles[c] == h
    ensures Refers(AddHandle(subs, t, c, h), handles)
    ensures Ids(AddHandle(subs, t, c, h)) == Subscribe(Ids(subs), t, c)
  {
    var after := AddHandle(subs, t, c, h);
    assert after[t].Keys == Listeners(Ids(subs), t) + {c};
    assert Ids(after).Keys == Subscribe(Ids(subs), t, c).Keys;
  }

  lemma DropHandleIds(subs: HandleIndex, handles: map<nat, ConnHandle>, t: string, c: nat)
    requires Refers(subs, handles)
    ensures Refers(DropHandle(subs, t, c), handles)
    ensures Ids(DropHandle(subs, t, c)) == Unsubscribe(Ids(subs), t, c)
  {
    if t in subs {
      assert (subs[t] - {c}).Keys == subs[t].Keys - {c};
      assert subs[t] - {c} == map[] <==> subs[t].Keys - {c} == {};
      assert Ids(DropHandle(subs, t, c)).Keys == Unsubscribe(Ids(subs), t, c).Keys;
    }
  }

  /** Dropping type after type amounts to `RemoveConn`. */
  lemma RemoveConnStep(subs: Index, c: nat, types: set<string>, t: string)
    requires t !in types
    ensures RemoveConn(subs, c, types + {t}) == Unsubscribe(RemoveConn(subs, c, types), t, c)
  {
    var l, r := RemoveConn(subs, c, types + {t}), Unsubscribe(RemoveConn(subs, c, types), t, c);
    assert l.Keys == r.Keys;
  }

  ghost function Queues(handles: map<nat, ConnHandle>): map<nat, Queue>
    reads handles.Values
  {
    map c | c in handles :: handles[c].State()
  }

  // --- sorted listings ---------------------------------------------------------------------

  predicate Ascending(names: seq<string>)
  {
    forall i, j :: 0 <= i < j < |names| ==> StrLess(names[i], names[j])
  }

  function Place(names: seq<string>, t: string): seq<string>
  {
    if names == [] then [t]
    else if StrLess(t, names[0]) then [t] + names
    else [names[0]] + Place(names[1..], t)
  }

  lemma {:induction false} PlaceKeeps(names: seq<string>, t: string)
    requires Ascending(names) && t !in names
    ensures Ascending(Place(names, t))
    ensures forall u :: u in Place(names, t) <==> u in names || u == t
  {
    if names == [] {
    } else {
      var head, tail := names[0], names[1..];
      assert forall i :: 0 <= i < |tail| ==> tail[i] == names[i + 1] && tail[i] in names;
      PlaceKeeps(tail, t);
      StrLessTotal(t, head);
      assert forall u :: u in names <==> u == head || u in tail;
      if StrLess(t, head) {
        forall u | u in tail ensures StrLess(t, u) {
          StrLessTransitive(t, head, u);
        }
        AscendingCons(t, names);
      } else {
        AscendingCons(head, Place(tail, t));
      }
    }
  }

  lemma AscendingCons(head: string, tail: seq<string>)
    requires Ascending(tail)
    requires forall u :: u in tail ==> StrLess(head, u)
    ensures Ascending([head] + tail)
  {
    assert forall i :: 0 <= i < |tail| ==> tail[i] in tail;
  }

  // --- the shared registry, updated in place -----------------------------------------

  class Registry {
    const daemonId: string
    var nextSeq: nat
    var types: Table
    var subs: map<string, map<nat, ConnHandle>>
    const seen: SeenSet
    ghost var handles: map<nat, ConnHandle>
    ghost var accepted: seq<Message>
    ghost var fanned: seq<FanEvent>

    /** `handles` knows every connection; the index only refers to those, under their own id. */
    ghost predicate Valid()
      reads this, seen, handles.Values
    {
      && seen.Valid()
      && (forall c :: c in handles ==> handles[c].id == c)
      && Refers(subs, handles)
    }

    ghost function State(): RegState
      reads this, seen, handles.Values
    {
      RegState(daemonId, nextSeq, types, seen.State(), Ids(subs),
               Queues(handles), accepted, fanned)
    }

    constructor (id: string, seenCapacity: nat)
      ensures Valid() && fresh(seen) && State() == NewRegistry(id, seenCapacity)
    {
      daemonId, nextSeq, types, subs := id, 1, map[], map[];
      seen := new SeenSet(seenCapacity);
      handles, accepted, fanned := map[], [], [];
    }

    method NextMsgId() returns (id: string)
      modifies this`nextSeq
      ensures id == MsgId(daemonId, old(nextSeq)) && nextSeq == old(nextSeq) + 1
    {
      var n := nextSeq;
      nextSeq := nextSeq + 1;
      id := daemonId + ['-'] + Print(n, 16);
    }

    method RegisterLocal(t: string, key: string, now: nat) returns (r: Registration)
      requires Valid()
      modifies this`types
      ensures Valid()
      ensures (r, types) == Ownership.RegisterLocal(old(types), daemonId, t, key, now)
      ensures Descends(old(types), types)
    {
      RegisterDescends(types, daemonId, t, key, now);
      if t !in types {
        var reg := TypeReg(key, daemonId, now);
        types := types[t := reg];
        return Registered(reg, true);
      }
      if types[t].key == key {
        return Registered(types[t], false);
      }
      return Refused;
    }

    method ApplyRemoteRegistration(t: string, incoming: TypeReg) returns (effective: Option<TypeReg>)
      requires Valid()
      modifies this`types
      ensures Valid()
      ensures (effective, types) == ApplyRemote(old(types), t, incoming)
      ensures Descends(old(types), types) && Settled(types, t, incoming)
      ensures effective == if t !in old(types) || Earlier(incoming, old(types)[t]) then Some(incoming) else None
      ensures types == if effective.Some? then old(types)[t := incoming] else old(types)
    {
      hide Earlier, NoLater;
      if t in types {
        OrderIsTime(incoming, types[t]);
      }
      ApplyDescends(types, t, incoming);
      if t !in types {
        types := types[t := incoming];
        return Some(incoming);
      }
      var existing := types[t];
      if existing == incoming {
        AtMostReflexive(incoming);
        return None;
      }
      if Precedes(incoming, existing) {
        types := types[t := incoming];
        return Some(incoming);
      }
      return None;
    }

    method SubscribeConn(t: string, h: ConnHandle)
      requires Valid() && h.id in handles && handles[h.id] == h
      modifies this`subs
      ensures Valid() && Ids(subs) == Subscribe(old(Ids(subs)), t, h.id)
    {
      AddHandleIds(subs, handles, t, h.id, h);
      subs := AddHandle(subs, t, h.id, h);
    }

    method UnsubscribeConn(t: string, c: nat)
      requires Valid()
      modifies this`subs
      ensures Valid() && Ids(subs) == Unsubscribe(old(Ids(subs)), t, c)
    {
      DropHandleIds(subs, handles, t, c);
      subs := DropHandle(subs, t, c);
    }

    /** Remove a finished connection from every type it had subscribed to. */
    method Remove(c: nat, mine: set<string>)
      requires Valid()
      modifies this`subs
      ensures Valid() && Ids(subs) == RemoveConn(old(Ids(subs)), c, mine)
    {
      var todo := mine;
      while todo != {}
        invariant todo <= mine
        invariant Refers(subs, handles) && Ids(subs) == RemoveConn(old(Ids(subs)), c, mine - todo)
        decreases todo
      {
        var t :| t in todo;
        DropHandleIds(subs, handles, t, c);
        RemoveConnStep(old(Ids(subs)), c, mine - todo, t);
        assert mine - todo + {t} == mine - (todo - {t});
        subs := DropHandle(subs, t, c);
        todo := todo - {t};
      }
      assert mine - {} == mine;
    }

    method PublishPrecheck(t: string, key: string) returns (a: Authorization)
      ensures a == Authorize(types, t, key)
      ensures a == UnknownType <==> t !in types
      ensures a == KeyMismatch <==> t in types && types[t].key != key
    {
      if t !in types {
        return UnknownType;
      }
      return if types[t].key != key then KeyMismatch else Authorized;
    }

    /** The known types in order; keys are not disclosed. */
    method ListTypes() returns (names: seq<string>)
      ensures Ascending(names) && (forall t :: t in names <==> t in types)
    {
      names := [];
      var todo := types.Keys;
      while todo != {}
        invariant todo <= types.Keys && Ascending(names)
        invariant forall t :: t in names <==> t in types && t !in todo
        decreases todo
      {
        var t :| t in todo;
        PlaceKeeps(names, t);
        names := Place(names, t);
        todo := todo - {t};
      }
    }

    /** Offer `m` once to every current subscriber of its type and to no one else. */
    method FanoutLocked(m: Message)
      requires Valid()
      modifies this`fanned, handles.Values
      ensures Valid() && State() == FanOut(old(State()), m)
    {
      hide OfferTo, Queues;
      var to := if m.typeName in subs then subs[m.typeName] else map[];
      assert to.Keys == Listeners(Ids(subs), m.typeName);
      OfferEach(to, m);
      fanned := fanned + [FanEvent(m, Listeners(Ids(subs), m.typeName))];
    }

    method OfferEach(to: map<nat, ConnHandle>, m: Message)
      requires Valid()
      requires forall c :: c in to ==> c in handles && to[c] == handles[c]
      modifies handles.Values
      ensures Valid() && Queues(handles) == OfferTo(old(Queues(handles)), to.Keys, m)
    {
      hide Refers, Offer, Ids, Spaced, Last;
      var todo := to.Keys;
      while todo != {}
        invariant todo <= to.Keys
        invariant Valid()
        invariant forall c :: c in handles ==>
          handles[c].State() == if c in to && c !in todo then Offer(old(handles[c].State()), m)
                                else old(handles[c].State())
        decreases todo
      {
        var c :| c in todo;
        assert to[c] == handles[c] && handles[c] in handles.Values;
        to[c].TrySend(m);
        todo := todo - {c};
      }
    }

    /** Enter `m` in the seen-set; false when it was there already. */
    method Record(m: Message) returns (isNew: bool)
      requires Valid()
      modifies this`accepted, seen
      ensures Valid() && (isNew, State()) == Accept(old(State()), m)
    {
      hide Insert, Queues, Ids, Refers;
      isNew := seen.Add(m.msgId);
      accepted := if isNew then accepted + [m] else accepted;
    }

    /** Authorize, number, record and fan out, all while holding the lock. */
    method PublishLocal(t: string, key: string, body: seq<string>) returns (a: Authorization, m: Message)
      requires Valid()
      modifies this`nextSeq, this`accepted, this`fanned, seen, handles.Values
      ensures Valid()
      ensures a == Authorize(types, t, key)
      ensures a == UnknownType <==> t !in types
      ensures a == KeyMismatch <==> t in types && types[t].key != key
      ensures a == Authorized ==> m == NextMessage(old(State()), t, body)
      ensures State() == PublishStep(old(State()), t, key, body)
    {
      hide Print, Insert, OfferTo;
      m := Message(t, [], [], []);
      if t !in types {
        return UnknownType, m;
      }
      if types[t].key != key {
        return KeyMismatch, m;
      }
      var id := NextMsgId();
      m := Message(t, id, daemonId, body);
      var _ := Record(m);
      FanoutLocked(m);
      a := Authorized;
    }

    /** False for a duplicate; otherwise `m` is recorded and fanned out. */
    method IngestRemote(m: Message) returns (isNew: bool)
      requires Valid()
      modifies this`accepted, this`fanned, seen, handles.Values
      ensures Valid()
      ensures isNew == Accept(old(State()), m).0
      ensures State() == if isNew then FanOut(Accept(old(State()), m).1, m) else old(State())
    {
      isNew := Record(m);
      if !isNew {
        return;
      }
      FanoutLocked(m);
    }
  }
}
