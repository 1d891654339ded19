/** The wait before a retry: exponential, capped, and jittered around the cap. */
module Backoff {

  datatype Policy = Policy(initialMs: real, maxMs: real, factor: real, jitter: real)

  predicate Sensible(policy: Policy) {
    policy.initialMs >= 0.0 && policy.maxMs >= 0.0 && policy.factor >= 1.0 && 0.0 <= policy.jitter <= 1.0
  }

  function Power(x: real, n: nat): real {
    if n == 0 then 1.0 else x * Power(x, n - 1)
  }

  function Min(x: real, y: real): real {
    if x <= y then x else y
  }

  /** The delay before jitter. */
  function Capped(attempt: nat, policy: Policy): real {
    Min(policy.initialMs * Power(policy.factor, if attempt == 0 then 0 else attempt - 1), policy.maxMs)
  }

  /** `Math.round`: halves go up. */
  function Round(x: real): int {
    (x + 0.5).Floor
  }

  function Spread(capped: real, policy: Policy): real {
    capped * policy.jitter
  }

  /** Centred on the computed delay. */
  function Around(capped: real, spread: real, random: real): real {
    capped - spread / 2.0 + random * spread
  }

  function Jittered(attempt: nat, policy: Policy, random: real): real {
    var capped := Capped(attempt, policy);
    Around(capped, Spread(capped, policy), random)
  }

  function Delay(attempt: nat, policy: Policy, random: real): (ms: int)
    ensures ms >= 0
  {
    var rounded := Round(Jittered(attempt, policy, random));
    if rounded < 0 then 0 else rounded
  }

  lemma TimesAtLeastOne(x: real, y: real)
    requires x >= 1.0 && y >= 0.0
    ensures x * y >= y
  {
    assert (x - 1.0) * y >= 0.0;
  }

  lemma {:induction false} PowerGrows(x: real, m: nat, n: nat)
    requires x >= 1.0 && m <= n
    ensures 1.0 <= Power(x, m) <= Power(x, n)
    decreases n
  {
    if n > 0 {
      if m < n {
        PowerGrows(x, m, n - 1);
        TimesAtLeastOne(x, Power(x, n - 1));
      } else {
        PowerGrows(x, m - 1, n - 1);
        TimesAtLeastOne(x, Power(x, n - 1));
      }
    }
  }

  lemma Scale(k: real, x: real, y: real)
    requires k >= 0.0 && x <= y
    ensures k * x <= k * y
  {
    assert k * (y - x) >= 0.0;
  }

  /** The capped delay never shrinks as attempts grow, and never passes the ceiling. */
  lemma CappedNeverShrinks(first: nat, later: nat, policy: Policy)
    requires Sensible(policy) && first <= later
    ensures 0.0 <= Capped(first, policy) <= Capped(later, policy) <= policy.maxMs
  {
    hide Power;
    var m := if first == 0 then 0 else first - 1;
    var n := if later == 0 then 0 else later - 1;
    PowerGrows(policy.factor, m, n);
    Scale(policy.initialMs, Power(policy.factor, m), Power(policy.factor, n));
    Scale(policy.initialMs, 0.0, Power(policy.factor, m));
  }

  /** The first wait is the initial one, capped. */
  lemma CappedStarts(policy: Policy)
    ensures Capped(1, policy) == Min(policy.initialMs, policy.maxMs)
  {
    assert Power(policy.factor, 0) == 1.0;
  }

  lemma PowerSteps(initial: real, factor: real, power: real)
    ensures initial * (factor * power) == factor * (initial * power)
  {
  }

  /** Each further wait is the one before times the factor, capped again. */
  lemma CappedGrows(attempt: nat, policy: Policy)
    requires Sensible(policy) && attempt >= 1
    ensures Capped(attempt + 1, policy) == Min(policy.factor * Capped(attempt, policy), policy.maxMs)
  {
    var power := Power(policy.factor, attempt - 1);
    assert Power(policy.factor, attempt) == policy.factor * power;
    hide Power;
    PowerSteps(policy.initialMs, policy.factor, power);
    var plain := policy.initialMs * power;
    if plain > policy.maxMs {
      TimesAtLeastOne(policy.factor, plain);
      TimesAtLeastOne(policy.factor, policy.maxMs);
    }
  }

  /** Whether a wait in milliseconds is within half the spread of the capped one, up to rounding. */
  predicate FitsAttempt(delayMs: int, attempt: nat, policy: Policy) {
    var capped := Capped(attempt, policy);
    var half := Spread(capped, policy) / 2.0 + 0.5;
    capped - half <= delayMs as real <= capped + half
  }

  lemma DelayFitsAttempt(attempt: nat, policy: Policy, random: real)
    requires Sensible(policy) && 0.0 <= random <= 1.0
    ensures FitsAttempt(Delay(attempt, policy, random), attempt, policy)
  {
    DelayWithinSpread(attempt, policy, random);
    hide Capped;
    hide Spread;
    hide Delay;
    hide Jittered;
  }

  /**
    * The jittered delay stays within half the spread of the capped one, on
    * either side, and rounding moves it by at most half a millisecond.
    */
  lemma DelayWithinSpread(attempt: nat, policy: Policy, random: real)
    requires Sensible(policy) && 0.0 <= random <= 1.0
    ensures var capped := Capped(attempt, policy);
            var half := Spread(capped, policy) / 2.0;
            && capped - half <= Jittered(attempt, policy, random) <= capped + half
            && 0.0 <= capped - half
            && -0.5 <= Delay(attempt, policy, random) as real - Jittered(attempt, policy, random) <= 0.5
  {
    hide Capped;
    hide Spread;
    hide Around;
    hide Round;
    var capped := Capped(attempt, policy);
    CappedNeverShrinks(attempt, attempt, policy);
    SpreadWithin(capped, policy);
    AroundWithin(capped, Spread(capped, policy), random);
    RoundsNearby(Jittered(attempt, policy, random));
  }

  lemma Portion(whole: real, part: real)
    requires whole >= 0.0 && 0.0 <= part <= 1.0
    ensures 0.0 <= whole * part <= whole
  {
    var rest := 1.0 - part;
    assert whole * rest >= 0.0 && whole * part >= 0.0;
    assert whole * rest == whole - whole * part;
  }

  lemma SpreadWithin(capped: real, policy: Policy)
    requires Sensible(policy) && capped >= 0.0
    ensures 0.0 <= Spread(capped, policy) <= capped
  {
    Portion(capped, policy.jitter);
  }

  lemma AroundWithin(capped: real, spread: real, random: real)
    requires 0.0 <= spread <= capped && 0.0 <= random <= 1.0
    ensures 0.0 <= capped - spread / 2.0 <= Around(capped, spread, random) <= capped + spread / 2.0
  {
    Portion(spread, random);
    assert random * spread == spread * random;
  }

  lemma RoundsNearby(x: real)
    requires x >= 0.0
    ensures Round(x) >= 0 && -0.5 <= Round(x) as real - x <= 0.5
  {
  }

  /** It reaches both ends of the spread, and moves evenly between them. */
  lemma DelayCoversTheSpread(attempt: nat, policy: Policy, random: real)
    ensures var half := Capped(attempt, policy) * policy.jitter / 2.0;
            && Jittered(attempt, policy, 0.0) == Capped(attempt, policy) - half
            && Jittered(attempt, policy, 1.0) == Capped(attempt, policy) + half
            && Jittered(attempt, policy, random) - Jittered(attempt, policy, 0.0) == random * (2.0 * half)
  {
    hide Capped;
    var spread := Capped(attempt, policy) * policy.jitter;
    assert random * (2.0 * (spread / 2.0)) == random * spread;
  }
}
