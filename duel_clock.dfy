/**
 * The client's clock arithmetic: a whole-second budget counted down from a
 * millisecond timestamp, `Math.max(0, budget - Math.floor((now - start) / 1000))`.
 * Dafny's `/` with a positive divisor rounds down, as `Math.floor` does, also
 * for a negative elapsed time.
 */
module DuelClock {

  /** The pre-match countdown, in seconds. */
  const CountdownSeconds := 5

  function ElapsedSeconds(now: int, start: int): int {
    (now - start) / 1000
  }

  function Remaining(budget: int, now: int, start: int): (r: int)
    ensures r >= 0
    ensures now >= start && budget >= 0 ==> r <= budget
  {
    var left := budget - ElapsedSeconds(now, start);
    if left > 0 then left else 0
  }

  lemma DivMonotone(a: int, b: int)
    requires a <= b
    ensures a / 1000 <= b / 1000
  {
    var qa, qb := a / 1000, b / 1000;
    assert a == 1000 * qa + a % 1000;
    assert b == 1000 * qb + b % 1000;
  }

  /** For a fixed start the remaining time never goes up as the clock advances. */
  lemma RemainingNonIncreasing(budget: int, start: int, t1: int, t2: int)
    requires t1 <= t2
    ensures Remaining(budget, t2, start) <= Remaining(budget, t1, start)
  {
    DivMonotone(t1 - start, t2 - start);
  }

  /** The remaining time is positive exactly while fewer than `budget` whole seconds have passed. */
  lemma RemainingPositiveIff(budget: int, now: int, start: int)
    ensures Remaining(budget, now, start) > 0 <==> now - start < budget * 1000
  {
    var e := now - start;
    assert e == 1000 * (e / 1000) + e % 1000;
  }

  /** During the first second the whole budget is shown. */
  lemma RemainingFirstSecond(budget: int, now: int, start: int)
    requires budget >= 0 && 0 <= now - start < 1000
    ensures Remaining(budget, now, start) == budget
  {
  }

  /** The countdown shows 5 during its first second and is in [0, 5] once it has begun. */
  lemma CountdownStartsAtFive(now: int, start: int)
    requires 0 <= now - start < 1000
    ensures Remaining(CountdownSeconds, now, start) == 5
  {
  }

  /** The countdown is 0 from 5000 ms after its start on. */
  lemma CountdownEnds(now: int, start: int)
    requires now - start >= 5000
    ensures Remaining(CountdownSeconds, now, start) == 0
  {
    RemainingPositiveIff(CountdownSeconds, now, start);
  }
}
