/** Small numeric helpers shared by the estimator and the aggregator. */
module Numeric {

  /** TimeSpan ticks are 100 ns. */
  const TicksPerMillisecond: int := 10000

  function Abs(x: real): real { if x < 0.0 then -x else x }

  /** `x` lies on the closed segment between `a` and `b`. */
  predicate Between(x: real, a: real, b: real)
  {
    (a <= x <= b) || (b <= x <= a)
  }

  function Min(a: int, b: int): int { if a <= b then a else b }

  function Max(a: int, b: int): int { if a <= b then b else a }
}
