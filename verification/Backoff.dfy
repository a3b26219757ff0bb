/** The deterministic part of the NSQ retry delay. */
module Backoff {

  const MAX_DURATION: int := 0x7fff_ffff_ffff_ffff

  function Doubled(base: nat, times: nat): nat {
    if times == 0 then base else 2 * Doubled(base, times - 1)
  }

  function Least(a: int, b: int): int { if a < b then a else b }

  /** A limit below the base delay counts as the base delay. */
  function Limit(base: int, max: int): int { if max < base then base else max }

  lemma {:induction false} DoubledGrows(base: nat, a: nat, b: nat)
    requires a <= b
    ensures Doubled(base, a) <= Doubled(base, b)
  {
    if a < b { DoubledGrows(base, a, b - 1); }
  }

  /** The delay is the base doubled once per earlier attempt, capped at the limit,
      and no intermediate value leaves the duration range. */
  method RetryDelay(base: int, max: int, attempt: int) returns (delay: int)
    requires 0 <= base <= MAX_DURATION && 0 <= max <= MAX_DURATION
    ensures base == 0 ==> delay == 0
    ensures base > 0 ==> delay == Least(Limit(base, max), Doubled(base, if attempt < 1 then 0 else attempt - 1))
    ensures 0 <= delay <= MAX_DURATION
  {
    if base <= 0 {
      return 0;
    }
    var n := if attempt < 1 then 1 else attempt;
    var limit := Limit(base, max);
    delay := base;
    var step := 1;
    while step < n && delay < limit
      invariant 1 <= step <= n && base <= delay <= limit
      invariant delay == Least(limit, Doubled(base, step - 1))
    {
      DoubledGrows(base, step, n - 1);
      if delay > limit / 2 {
        delay := limit;
        break;
      }
      assert 2 * delay <= limit <= MAX_DURATION;
      delay := delay * 2;
      step := step + 1;
    }
    DoubledGrows(base, step - 1, n - 1);
    if delay > limit {
      delay := limit;
    }
  }

  /** More attempts never shorten the delay. */
  lemma DelayMonotone(base: nat, limit: nat, a: nat, b: nat)
    requires a <= b
    ensures Least(limit, Doubled(base, a)) <= Least(limit, Doubled(base, b))
  {
    DoubledGrows(base, a, b);
  }
}
