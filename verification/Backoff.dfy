/** The randomised retry loop around the operator's clean-up command. */
module Backoff {

  function Pow(b: nat, n: nat): nat {
    if n == 0 then 1 else b * Pow(b, n - 1)
  }

  /** getRandInt: a random number below m, or m itself when the random source fails */
  method GetRandInt(m: nat) returns (r: nat)
    requires m > 0
    ensures r <= m
  {
    r :| r <= m;
  }

  /** RunHypershiftCmdWithRetires, where the i-th call of the command succeeds if succeeds(i): how
      often it is called, and the time slept in all, in the unit of the base. Every failed call is
      followed by a sleep, the last one included. */
  method RunWithRetries(attempts: int, base: nat, succeeds: nat -> bool) returns (ok: bool, failures: nat, slept: nat)
    requires base > 0
    ensures forall i: nat | i < failures :: !succeeds(i)
    ensures ok <==> failures < attempts
    ensures ok ==> succeeds(failures)
    ensures !ok ==> failures == if attempts < 0 then 0 else attempts
    ensures base * (Pow(2, failures) - 1) <= slept
    ensures 4 * slept <= 3 * base * (Pow(3, failures) - 1)
  {
    var sleep, i := base, attempts;
    failures, slept := 0, 0;
    ghost var low, high := base, base;
    while i > 0
      invariant failures == (if attempts < 0 then 0 else attempts) - (if i < 0 then 0 else i)
      invariant attempts < 0 ==> i == attempts
      invariant i <= attempts && (attempts >= 0 ==> i >= 0)
      invariant forall j: nat | j < failures :: !succeeds(j)
      invariant low == base * Pow(2, failures) && high == base * Pow(3, failures)
      invariant 0 < low <= sleep <= high
      invariant low - base <= slept && 4 * slept <= 3 * (high - base)
    {
      if succeeds(failures) {
        Bounds(base, failures, low, high);
        return true, failures, slept;
      }
      var jitter := GetRandInt(sleep);
      sleep := sleep + jitter / 2;
      slept := slept + sleep;
      sleep := 2 * sleep;
      Double(base, failures);
      low, high := 2 * low, 3 * high;
      failures, i := failures + 1, i - 1;
    }
    Bounds(base, failures, low, high);
    ok := false;
  }

  lemma Double(base: nat, n: nat)
    ensures base * Pow(2, n + 1) == 2 * (base * Pow(2, n))
    ensures base * Pow(3, n + 1) == 3 * (base * Pow(3, n))
  {
    var p, q := Pow(2, n), Pow(3, n);
    assert base * (2 * p) == 2 * (base * p);
    assert base * (3 * q) == 3 * (base * q);
  }

  lemma Bounds(base: nat, n: nat, low: nat, high: nat)
    requires low == base * Pow(2, n) && high == base * Pow(3, n)
    ensures base * (Pow(2, n) - 1) == low - base
    ensures 3 * base * (Pow(3, n) - 1) == 3 * (high - base)
  {
    var q: int := Pow(3, n);
    assert 3 * base * (q - 1) == 3 * (base * q - base);
  }
}
