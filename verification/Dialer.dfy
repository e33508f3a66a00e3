/** The reconnecting dialer: how long it sleeps after each attempt. */
module Dialer {

  function Min(a: nat, b: nat): nat
  {
    if a < b then a else b
  }

  function Pow2(n: nat): nat
  {
    if n == 0 then 1 else 2 * Pow2(n - 1)
  }

  function Backoff(base: nat, doublings: nat, max: nat): nat
  {
    if doublings == 0 then base else Min(base * Pow2(doublings), max)
  }

  /** Attempts that ended in an error since the last that ended in `Ok`, or since the start. */
  function Failures(outcomes: seq<bool>): (n: nat)
    ensures n <= |outcomes|
  {
    if outcomes == [] || outcomes[|outcomes| - 1] then 0 else Failures(outcomes[..|outcomes| - 1]) + 1
  }

  /** Whether any attempt ended in `Ok`. */
  predicate EverOk(outcomes: seq<bool>)
  {
    true in outcomes
  }

  /** The sleep after the last of `outcomes`: doubling from the base with every error, up to the
      maximum; the base itself is not capped. */
  function Delay(outcomes: seq<bool>, base: nat, max: nat): nat
    requires outcomes != []
  {
    Backoff(base, if EverOk(outcomes) then Failures(outcomes) else |outcomes| - 1, max)
  }

  lemma DoubleBackoff(base: nat, doublings: nat, max: nat)
    ensures Backoff(base, doublings + 1, max) == Min(2 * Backoff(base, doublings, max), max)
  {
    assert base * Pow2(doublings + 1) == 2 * (base * Pow2(doublings));
    assert base * Pow2(0) == base;
  }

  lemma NextDelay(outcomes: seq<bool>, base: nat, max: nat)
    requires outcomes != []
    ensures Delay(outcomes + [true], base, max) == base
    ensures Delay(outcomes + [false], base, max) == Min(2 * Delay(outcomes, base, max), max)
  {
    assert (outcomes + [true])[..|outcomes|] == outcomes && (outcomes + [false])[..|outcomes|] == outcomes;
    assert true in outcomes + [true] by { assert (outcomes + [true])[|outcomes|]; }
    assert EverOk(outcomes + [false]) == EverOk(outcomes);
    var n := if EverOk(outcomes) then Failures(outcomes) else |outcomes| - 1;
    DoubleBackoff(base, n, max);
  }

  lemma FirstDelay(ok: bool, base: nat, max: nat)
    ensures Delay([ok], base, max) == base
  {
    assert [ok][..0] == [];
  }

  /** `run_dialer` over the outcomes of its attempts, true exactly if `dial_once` returned `Ok`: the link came
      up and ended without an I/O error.  A link that came up and broke does not reset the backoff. */
  method RunDialer(baseMs: nat, maxMs: nat, outcomes: seq<bool>) returns (slept: seq<nat>)
    ensures |slept| == |outcomes|
    ensures var base, max := if baseMs < 1 then 1 else baseMs, if maxMs < 1 then 1 else maxMs;
            forall i :: 0 <= i < |outcomes| ==> slept[i] == Delay(outcomes[..i + 1], base, max)
  {
    var base, max := if baseMs < 1 then 1 else baseMs, if maxMs < 1 then 1 else maxMs;
    hide Delay, Min;
    var backoff := base;
    slept := [];
    for i := 0 to |outcomes|
      invariant |slept| == i
      invariant forall k :: 0 <= k < i ==> slept[k] == Delay(outcomes[..k + 1], base, max)
      invariant backoff == if i == 0 then base else Min(2 * Delay(outcomes[..i], base, max), max)
    {
      assert outcomes[..i + 1] == outcomes[..i] + [outcomes[i]];
      if i == 0 {
        assert outcomes[..1] == [outcomes[0]];
        FirstDelay(outcomes[0], base, max);
      } else {
        NextDelay(outcomes[..i], base, max);
      }
      assert Min(backoff * 2, max) == Min(2 * backoff, max);
      if outcomes[i] {
        backoff := base;
      }
      slept := slept + [backoff];
      backoff := Min(backoff * 2, max);
    }
  }

  /** The configured maximum bounds every sleep exactly when the base does not exceed it. */
  lemma CappedIff(base: nat, max: nat)
    ensures (forall outcomes: seq<bool> :: outcomes != [] ==> Delay(outcomes, base, max) <= max) <==> base <= max
  {
    assert Delay([false], base, max) == base;
  }
}
