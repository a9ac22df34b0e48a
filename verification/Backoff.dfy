/** Exponential backoff: delays that double up to a maximum, in exact natural ticks. */
module Backoff {

  function Min(a: nat, b: nat): nat { if a < b then a else b }

  function Pow2(k: nat): nat { if k == 0 then 1 else 2 * Pow2(k - 1) }

  /** A delay doubled k times. */
  function Doubled(first: nat, k: nat): nat { if k == 0 then first else 2 * Doubled(first, k - 1) }

  lemma {:induction false} DoubledIsProduct(first: nat, k: nat)
    ensures Doubled(first, k) == first * Pow2(k)
  {
    if k > 0 {
      DoubledIsProduct(first, k - 1);
      assert first * (2 * Pow2(k - 1)) == 2 * (first * Pow2(k - 1));
    }
  }

  /** The next delay after one of the given length. */
  function Next(delay: nat, most: nat): nat { Min(delay * 2, most) }

  /** The k-th delay since the first, in closed form. The first is not clamped. */
  function Delay(first: nat, most: nat, k: nat): nat {
    if k == 0 then first else Min(Doubled(first, k), most)
  }

  lemma NextDelay(first: nat, most: nat, k: nat)
    ensures Next(Delay(first, most, k), most) == Delay(first, most, k + 1)
  {
  }

  lemma {:induction false} DoubledGrows(first: nat, j: nat, k: nat)
    requires j <= k
    ensures Doubled(first, j) <= Doubled(first, k)
    decreases k
  {
    if j < k {
      DoubledGrows(first, j, k - 1);
    }
  }

  /** The delays never shrink when the first is within the maximum, and then stay within it. */
  lemma DelayGrows(first: nat, most: nat, j: nat, k: nat)
    requires first <= most && j <= k
    ensures Delay(first, most, j) <= Delay(first, most, k) <= most
  {
    DoubledGrows(first, j, k);
    DoubledGrows(first, 0, k);
  }

  function Sum(s: seq<nat>): nat {
    if s == [] then 0 else Sum(s[..|s| - 1]) + s[|s| - 1]
  }

  /** A record of sleeps that follow the closed form, j sleeps after the first. */
  predicate FollowFrom(first: nat, most: nat, j: nat, sleeps: seq<int>) {
    forall k | 0 <= k < |sleeps| :: sleeps[k] == Delay(first, most, j + k)
  }

  lemma FollowCons(first: nat, most: nat, j: nat, sleeps: seq<int>)
    requires FollowFrom(first, most, j + 1, sleeps)
    ensures FollowFrom(first, most, j, [Delay(first, most, j)] + sleeps)
  {
    var all := [Delay(first, most, j)] + sleeps;
    forall k | 0 <= k < |all|
      ensures all[k] == Delay(first, most, j + k)
    {
      if k > 0 {
        assert sleeps[k - 1] == Delay(first, most, j + 1 + (k - 1));
      }
    }
  }

  predicate Follow(first: nat, most: nat, sleeps: seq<int>) {
    FollowFrom(first, most, 0, sleeps)
  }

  /** The first m of n delays, and at least one, are not clamped; the others are. */
  predicate Free(first: nat, most: nat, n: nat, m: nat) {
    && 1 <= m <= n
    && (m == 1 || Doubled(first, m - 1) <= most)
    && (m == n || Doubled(first, m) > most)
  }

  lemma {:induction false} FreeExists(first: nat, most: nat, n: nat) returns (m: nat)
    requires n >= 1
    ensures Free(first, most, n, m)
  {
    m := 1;
    while m < n && Doubled(first, m) <= most
      invariant 1 <= m <= n
      invariant m == 1 || Doubled(first, m - 1) <= most
    {
      m := m + 1;
    }
  }

  lemma LastDelay(first: nat, most: nat, n: nat, m: nat)
    requires Free(first, most, n, m)
    ensures Delay(first, most, n - 1) == if m == n then Doubled(first, n - 1) else most
    ensures m == n && n >= 2 ==> Free(first, most, n - 1, n - 1)
    ensures m < n ==> Free(first, most, n - 1, m)
  {
    if m < n {
      DoubledGrows(first, m, n - 1);
    } else if n >= 2 {
      DoubledGrows(first, n - 2, n - 1);
    }
  }

  function Repeated(x: nat, k: nat): nat { if k == 0 then 0 else Repeated(x, k - 1) + x }

  lemma {:induction false} RepeatedIsProduct(x: nat, k: nat)
    ensures Repeated(x, k) == x * k
  {
    if k > 0 {
      RepeatedIsProduct(x, k - 1);
      assert x * k == x * (k - 1) + x;
    }
  }

  function Formula(first: nat, most: nat, n: nat, m: nat): int
    requires m <= n
  {
    Doubled(first, m) - first + Repeated(most, n - m)
  }

  /** One more delay, free or clamped, in the formula. */
  lemma FormulaSnoc(first: nat, most: nat, n: nat, m: nat)
    requires 1 <= m <= n && n >= 2
    ensures Formula(first, most, n, m) ==
      if m == n then Formula(first, most, n - 1, n - 1) + Doubled(first, n - 1)
      else Formula(first, most, n - 1, m) + most
  {
    if m == n {
      assert Doubled(first, n) == 2 * Doubled(first, n - 1);
    } else {
      assert Repeated(most, n - m) == Repeated(most, n - m - 1) + most;
    }
  }

  lemma {:induction false} TotalRepeated(first: nat, most: nat, sleeps: seq<nat>, m: nat)
    requires Follow(first, most, sleeps) && Free(first, most, |sleeps|, m)
    ensures Sum(sleeps) == Formula(first, most, |sleeps|, m)
    decreases |sleeps|
  {
    var n, fewer := |sleeps|, sleeps[..|sleeps| - 1];
    assert sleeps[n - 1] == Delay(first, most, 0 + (n - 1));
    LastDelay(first, most, n, m);
    if n == 1 {
      assert Sum(fewer) == 0 && Doubled(first, 1) == 2 * first;
    } else {
      FormulaSnoc(first, most, n, m);
      TotalRepeated(first, most, fewer, if m == n then n - 1 else m);
    }
  }

  /** The total of n sleeps that follow the closed form: a geometric sum, then the maximum over
      and over. */
  lemma Total(first: nat, most: nat, sleeps: seq<nat>, m: nat)
    requires Follow(first, most, sleeps) && Free(first, most, |sleeps|, m)
    ensures Sum(sleeps) == first * (Pow2(m) - 1) + most * (|sleeps| - m)
  {
    TotalRepeated(first, most, sleeps, m);
    DoubledIsProduct(first, m);
    RepeatedIsProduct(most, |sleeps| - m);
    assert first * (Pow2(m) - 1) == first * Pow2(m) - first;
  }
}
