/** Type ownership: who may publish to a type, and which of two claims wins. */
module Ownership {
  import opened Text

  datatype TypeReg = TypeReg(key: string, origin: string, ts: nat)

  type Table = map<string, TypeReg>

  /** The strict order on `(timestamp, daemon-id)`; the lowest record wins. */
  predicate Precedes(a: TypeReg, b: TypeReg)
  {
    a.ts < b.ts || (a.ts == b.ts && StrLess(a.origin, b.origin))
  }

  predicate AtMost(a: TypeReg, b: TypeReg)
  {
    !Precedes(b, a)
  }

  lemma AtMostReflexive(a: TypeReg)
    ensures AtMost(a, a)
  {
    StrLessIrreflexive(a.origin);
  }

  lemma AtMostTransitive(a: TypeReg, b: TypeReg, c: TypeReg)
    requires AtMost(a, b) && AtMost(b, c)
    ensures AtMost(a, c)
  {
    if Precedes(c, a) {
      StrLessTotal(a.origin, b.origin);
      StrLessTotal(b.origin, c.origin);
      if StrLess(a.origin, b.origin) && StrLess(b.origin, c.origin) {
        StrLessTransitive(a.origin, b.origin, c.origin);
      }
      if StrLess(c.origin, a.origin) {
        if StrLess(a.origin, b.origin) {
          StrLessTransitive(c.origin, a.origin, b.origin);
        }
        if StrLess(a.origin, c.origin) {
          StrLessTransitive(a.origin, c.origin, a.origin);
          StrLessIrreflexive(a.origin);
        }
      }
      assert false;
    }
  }

  /** Two records that neither precedes carry the same timestamp and origin. */
  lemma AtMostAntisymmetric(a: TypeReg, b: TypeReg)
    requires AtMost(a, b) && AtMost(b, a)
    ensures a.ts == b.ts && a.origin == b.origin
  {
    StrLessTotal(a.origin, b.origin);
  }

  lemma PrecedesIsAtMost(a: TypeReg, b: TypeReg)
    requires Precedes(a, b)
    ensures AtMost(a, b)
  {
    if Precedes(b, a) {
      StrLessTransitive(a.origin, b.origin, a.origin);
      StrLessIrreflexive(a.origin);
      assert false;
    }
  }

  /** The same order without it: by time, and at the same time by the lexicographic order of the daemons. */
  ghost predicate Earlier(a: TypeReg, b: TypeReg)
  {
    a.ts < b.ts || (a.ts == b.ts && ComesFirst(a.origin, b.origin))
  }

  /** No later, and at the same time of the same daemon or of one that comes first. */
  ghost predicate NoLater(a: TypeReg, b: TypeReg)
  {
    a.ts < b.ts || (a.ts == b.ts && (a.origin == b.origin || ComesFirst(a.origin, b.origin)))
  }

  lemma OrderIsTime(a: TypeReg, b: TypeReg)
    ensures Precedes(a, b) <==> Earlier(a, b)
    ensures AtMost(a, b) <==> NoLater(a, b)
  {
    StrLessIff(a.origin, b.origin);
    StrLessTotal(a.origin, b.origin);
    StrLessIrreflexive(a.origin);
    if StrLess(a.origin, b.origin) && StrLess(b.origin, a.origin) {
      StrLessTransitive(a.origin, b.origin, a.origin);
    }
  }

  // --- the two ways a table changes ----------------------------------------------

  /** Outcome of a local REGISTER; `Refused` is status 433. */
  datatype Registration = Registered(reg: TypeReg, changed: bool) | Refused

  /** First registrant wins; the same key again is a no-op, another key is refused. */
  function RegisterLocal(types: Table, id: string, t: string, key: string, now: nat): (Registration, Table)
  {
    if t !in types then
      var reg := TypeReg(key, id, now);
      (Registered(reg, true), types[t := reg])
    else if types[t].key == key then (Registered(types[t], false), types)
    else (Refused, types)
  }

  /** A record learned from a peer replaces the local one only if it strictly precedes it. */
  function ApplyRemote(types: Table, t: string, incoming: TypeReg): (Option<TypeReg>, Table)
  {
    if t !in types || Precedes(incoming, types[t]) then (Some(incoming), types[t := incoming])
    else (None, types)
  }

  /** `types` already holds, for `t`, a record at least as low as `reg`. */
  predicate Settled(types: Table, t: string, reg: TypeReg)
  {
    t in types && AtMost(types[t], reg)
  }

  /** No type disappears and every entry only moves down. */
  ghost predicate Descends(before: Table, after: Table)
  {
    forall t :: t in before ==> Settled(after, t, before[t])
  }

  lemma ApplyDescends(types: Table, t: string, incoming: TypeReg)
    ensures Descends(types, ApplyRemote(types, t, incoming).1)
    ensures Settled(ApplyRemote(types, t, incoming).1, t, incoming)
    ensures ApplyRemote(types, t, incoming).0.None? <==> Settled(types, t, incoming)
  {
    forall u | u in types ensures Settled(ApplyRemote(types, t, incoming).1, u, types[u]) {
      AtMostReflexive(types[u]);
      if u == t && Precedes(incoming, types[t]) {
        PrecedesIsAtMost(incoming, types[t]);
      }
    }
    AtMostReflexive(incoming);
  }

  /** Descending is getting earlier: an entry only ever gives way to an earlier one. */
  lemma DescendsIff(before: Table, after: Table)
    ensures Descends(before, after) <==> forall t :: t in before ==> t in after && NoLater(after[t], before[t])
  {
    hide AtMost, NoLater;
    forall t | t in before && t in after ensures AtMost(after[t], before[t]) <==> NoLater(after[t], before[t]) {
      OrderIsTime(after[t], before[t]);
    }
  }

  lemma RegisterDescends(types: Table, id: string, t: string, key: string, now: nat)
    ensures Descends(types, RegisterLocal(types, id, t, key, now).1)
  {
    forall u | u in types ensures Settled(RegisterLocal(types, id, t, key, now).1, u, types[u]) {
      AtMostReflexive(types[u]);
    }
  }

  lemma DescendsKeepsSettled(before: Table, after: Table, t: string, reg: TypeReg)
    requires Descends(before, after) && Settled(before, t, reg)
    ensures Settled(after, t, reg)
  {
    AtMostTransitive(after[t], before[t], reg);
  }

  // --- applying records is idempotent and order-independent -------------------------

  datatype Claim = Claim(typeName: string, reg: TypeReg)

  /** Receive a list of claims one after the other. */
  function ApplyAll(types: Table, claims: seq<Claim>): Table
  {
    if claims == [] then types
    else
      var last := claims[|claims| - 1];
      ApplyRemote(ApplyAll(types, claims[..|claims| - 1]), last.typeName, last.reg).1
  }

  predicate Tie(a: TypeReg, b: TypeReg)
  {
    a.ts == b.ts && a.origin == b.origin
  }

  /** Among the entries of `types` and the claims, timestamp and origin determine the key. */
  ghost predicate Consistent(types: Table, claims: seq<Claim>)
  {
    && (forall c, d :: c in claims && d in claims && c.typeName == d.typeName && Tie(c.reg, d.reg) ==> c == d)
    && (forall c :: c in claims && c.typeName in types && Tie(types[c.typeName], c.reg) ==> types[c.typeName] == c.reg)
  }

  /** `reg` is the lowest of what the table held for `t` and what the claims offer for it. */
  ghost predicate IsLowest(types: Table, claims: seq<Claim>, t: string, reg: TypeReg)
  {
    && ((t in types && reg == types[t]) || Claim(t, reg) in claims)
    && (t in types ==> AtMost(reg, types[t]))
    && (forall c :: c in claims && c.typeName == t ==> AtMost(reg, c.reg))
  }

  lemma {:induction false} ApplyAllIsLowest(types: Table, claims: seq<Claim>, t: string)
    ensures t in ApplyAll(types, claims) <==> t in types || exists c :: c in claims && c.typeName == t
    ensures t in ApplyAll(types, claims) ==> IsLowest(types, claims, t, ApplyAll(types, claims)[t])
  {
    if claims == [] {
      if t in types {
        AtMostReflexive(types[t]);
      }
    } else {
      var init, last := claims[..|claims| - 1], claims[|claims| - 1];
      assert claims == init + [last];
      var mid := ApplyAll(types, init);
      ApplyAllIsLowest(types, init, t);
      ApplyDescends(mid, last.typeName, last.reg);
      if last.typeName == t && t in mid {
        var reg := ApplyAll(types, claims)[t];
        assert AtMost(reg, mid[t]);
        if t in types {
          AtMostTransitive(reg, mid[t], types[t]);
        }
        forall c | c in init && c.typeName == t ensures AtMost(reg, c.reg) {
          AtMostTransitive(reg, mid[t], c.reg);
        }
      }
    }
  }

  /** In terms of time: the entry is a record held or received, none of these has a smaller timestamp, and
      none with the same timestamp is of a daemon that comes first. */
  lemma ApplyAllIsEarliest(types: Table, claims: seq<Claim>, t: string)
    requires t in ApplyAll(types, claims)
    ensures var reg := ApplyAll(types, claims)[t];
            && ((t in types && reg == types[t]) || Claim(t, reg) in claims)
            && (t in types ==> NoLater(reg, types[t]))
            && (forall c :: c in claims && c.typeName == t ==> NoLater(reg, c.reg))
  {
    hide AtMost, NoLater;
    ApplyAllIsLowest(types, claims, t);
    var reg := ApplyAll(types, claims)[t];
    if t in types {
      OrderIsTime(reg, types[t]);
    }
    forall c | c in claims && c.typeName == t ensures NoLater(reg, c.reg) {
      OrderIsTime(reg, c.reg);
    }
  }

  /** Which links delivered which records, in which order and how often, does not matter. */
  lemma OrderDoesNotMatter(types: Table, claims: seq<Claim>, others: seq<Claim>)
    requires forall c :: c in claims <==> c in others
    requires Consistent(types, claims)
    ensures ApplyAll(types, claims) == ApplyAll(types, others)
  {
    var a, b := ApplyAll(types, claims), ApplyAll(types, others);
    forall t ensures t in a <==> t in b {
      ApplyAllIsLowest(types, claims, t);
      ApplyAllIsLowest(types, others, t);
    }
    forall t | t in a ensures a[t] == b[t] {
      ApplyAllIsLowest(types, claims, t);
      ApplyAllIsLowest(types, others, t);
      LowestIsUnique(types, claims, others, t, a[t], b[t]);
    }
  }

  lemma LowestIsUnique(types: Table, claims: seq<Claim>, others: seq<Claim>, t: string, a: TypeReg, b: TypeReg)
    requires forall c :: c in claims <==> c in others
    requires Consistent(types, claims)
    requires IsLowest(types, claims, t, a) && IsLowest(types, others, t, b)
    ensures a == b
  {
    var ca, cb := Claim(t, a), Claim(t, b);
    assert AtMost(a, b) by {
      if cb in others { assert cb in claims; }
    }
    assert AtMost(b, a) by {
      if ca in claims { assert ca in others; }
    }
    AtMostAntisymmetric(a, b);
    if ca in claims && cb in others {
      assert cb in claims;
    }
  }

  /** Two records for one type commute exactly when they do not fight over a tie that would win. */
  lemma CommutesIff(types: Table, t: string, a: TypeReg, b: TypeReg)
    ensures ApplyAll(types, [Claim(t, a), Claim(t, b)]) == ApplyAll(types, [Claim(t, b), Claim(t, a)])
       <==> !(Tie(a, b) && a.key != b.key && !Settled(types, t, a))
  {
    var ab, ba := [Claim(t, a), Claim(t, b)], [Claim(t, b), Claim(t, a)];
    PairApplied(types, Claim(t, a), Claim(t, b));
    PairApplied(types, Claim(t, b), Claim(t, a));
    StrLessIrreflexive(a.origin);
    if Tie(a, b) {
      if !Settled(types, t, a) && a.key != b.key {
        assert ApplyAll(types, ab)[t] == a;
        assert ApplyAll(types, ba)[t] == b;
      }
    } else {
      TieFreePairCommutes(types, t, a, b);
    }
  }

  lemma PairApplied(types: Table, c: Claim, d: Claim)
    ensures ApplyAll(types, [c, d])
         == ApplyRemote(ApplyRemote(types, c.typeName, c.reg).1, d.typeName, d.reg).1
  {
    assert [c, d][..1] == [c];
    assert [c][..0] == [];
    assert ApplyAll(types, [c]) == ApplyRemote(ApplyAll(types, []), c.typeName, c.reg).1;
  }

  lemma TieFreePairCommutes(types: Table, t: string, a: TypeReg, b: TypeReg)
    requires !Tie(a, b)
    ensures ApplyAll(types, [Claim(t, a), Claim(t, b)]) == ApplyAll(types, [Claim(t, b), Claim(t, a)])
  {
    PairApplied(types, Claim(t, a), Claim(t, b));
    PairApplied(types, Claim(t, b), Claim(t, a));
    StrLessTotal(a.origin, b.origin);
    if Precedes(a, b) {
      PrecedesIsAtMost(a, b);
    } else {
      PrecedesIsAtMost(b, a);
    }
    if t in types {
      if Precedes(a, types[t]) && !Precedes(b, types[t]) && Precedes(b, a) {
        AtMostTransitive(types[t], b, a);
      }
      if Precedes(b, types[t]) && !Precedes(a, types[t]) && Precedes(a, b) {
        AtMostTransitive(types[t], a, b);
      }
    }
  }
}
