/** The rate budget: how long the dispatcher waits between two sends of a
    campaign so that `limitCount` sends per `limitWindowSeconds` are never
    exceeded. */
module RateBudget {

  function Max(a: int, b: int): int
  {
    if a >= b then a else b
  }

  /** The ceiling of the exact quotient `n / d`. Dafny's `/` on `int` rounds
      toward negative infinity when `d` is positive, so negating twice turns
      it into rounding toward positive infinity. */
  function CeilDiv(n: int, d: int): int
    requires d >= 1
  {
    -((-n) / d)
  }

  /** `CeilDiv` is the least multiple count of `d` that reaches `n`. */
  lemma CeilDivIsCeiling(n: int, d: int)
    requires d >= 1
    ensures (CeilDiv(n, d) - 1) * d < n <= CeilDiv(n, d) * d
  {
    var q := (-n) / d;
    assert q * d + (-n) % d == -n;
  }

  /** Seconds to wait before the next send: the window divided by the count
      (a count below 1 read as 1), rounded up, and never negative. */
  function DelaySeconds(limitCount: int, limitWindowSeconds: int): (r: int)
    ensures r >= 0
    ensures limitWindowSeconds <= 0 ==> r == 0
  {
    Max(0, CeilDiv(limitWindowSeconds, Max(1, limitCount)))
  }

  /** The delay is the ceiling of window over count: the least whole number
      of seconds that, taken `count` times, reaches the window. In
      particular, with at least one send allowed, `count` delays add up to
      at least the whole window. */
  lemma DelayIsCeiling(limitCount: int, limitWindowSeconds: int)
    ensures var r := DelaySeconds(limitCount, limitWindowSeconds);
            limitWindowSeconds > 0 ==>
              (r - 1) * Max(1, limitCount) < limitWindowSeconds <= r * Max(1, limitCount)
    ensures limitCount >= 1 && limitWindowSeconds >= 0 ==>
              DelaySeconds(limitCount, limitWindowSeconds) * limitCount >= limitWindowSeconds
  {
    CeilDivIsCeiling(limitWindowSeconds, Max(1, limitCount));
  }

  /** One hour split over five sends gives twelve minutes between sends. */
  lemma DelayExample()
    ensures DelaySeconds(5, 3600) == 720
    ensures DelaySeconds(1, 10) == 10
    ensures DelaySeconds(7, 10) == 2
  {
  }

  lemma MulMonotone(a: int, b: int, c: int)
    requires a >= b && c >= 0
    ensures a * c >= b * c
  {
  }

  /** The provider limit holds over every window: among more than
      `limitCount` consecutive sends spaced `DelaySeconds` apart, the first
      and the last lie at least a whole window apart, so no window of
      `limitWindowSeconds` seconds sees more than `limitCount` of them. */
  lemma WindowCapacity(limitCount: int, limitWindowSeconds: int, sends: nat)
    requires limitCount >= 1
    requires sends > limitCount
    ensures (sends - 1) * DelaySeconds(limitCount, limitWindowSeconds) >= limitWindowSeconds
  {
    var r := DelaySeconds(limitCount, limitWindowSeconds);
    DelayIsCeiling(limitCount, limitWindowSeconds);
    if limitWindowSeconds > 0 {
      MulMonotone(sends - 1, limitCount, r);
    } else {
      MulMonotone(sends - 1, 0, r);
    }
  }
}
