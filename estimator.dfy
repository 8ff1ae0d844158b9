/**
 * The receiver's clock-offset estimate.  `PublisherTimeBase` tracks the
 * sender's clock: a time-base message overwrites it, and every data message
 * advances it by the local time elapsed since the previous data message.
 * The ping sample is the gap between that estimate and the timestamp the
 * sender wrote into the frame, smoothed with weight 0.01 per sample.
 * Times are TimeSpan ticks (100 ns); milliseconds are reals.
 */
module Estimator {
  import opened Numeric

  /** `TimeSpan.TotalMilliseconds` of a tick count. */
  function TotalMilliseconds(ticks: int): real
  {
    ticks as real / TicksPerMillisecond as real
  }

  /**
   * The ping sample of one frame: estimated sender time minus the frame's own
   * timestamp.  What it measures is stated by `SampleUnderEqualClockRates`.
   */
  function Delta(timeBase: int, sent: int): real
  {
    TotalMilliseconds(timeBase) - TotalMilliseconds(sent)
  }

  /**
   * The ping update as the handler writes it: a non-positive ping is first
   * replaced by the sample, then the 0.99 / 0.01 average is applied.
   */
  function NextPing(ping: real, delta: real): (p: real)
    ensures ping <= 0.0 ==> p == delta
    ensures ping > 0.0 ==> p - delta == 0.99 * (ping - delta)
    ensures ping > 0.0 ==> Between(p, ping, delta)
    ensures Abs(p - delta) <= 0.99 * Abs(ping - delta)
  {
    var seeded := if ping <= 0.0 then delta else ping;
    seeded * 0.99 + 0.01 * delta
  }

  function Pow(x: real, k: nat): real
  {
    if k == 0 then 1.0 else x * Pow(x, k - 1)
  }

  /** The ping after `k` frames that all carry the same sample. */
  function PingAfter(ping: real, delta: real, k: nat): real
  {
    if k == 0 then ping else NextPing(PingAfter(ping, delta, k - 1), delta)
  }

  /** The ping after a sequence of frames, one sample each, in arrival order. */
  function PingOver(ping: real, deltas: seq<real>): real
    decreases |deltas|
  {
    if deltas == [] then ping else PingOver(NextPing(ping, deltas[0]), deltas[1..])
  }

  lemma ScaleWithin(a: real, b: real)
    requires 0.0 <= a <= 1.0 && 0.0 <= b
    ensures 0.0 <= a * b <= b
  {
    assert (1.0 - a) * b >= 0.0;
  }

  lemma {:induction false} PowInUnit(x: real, k: nat)
    requires 0.0 <= x <= 1.0
    ensures 0.0 <= Pow(x, k) <= 1.0
  {
    if k > 0 {
      PowInUnit(x, k - 1);
      ScaleWithin(x, Pow(x, k - 1));
    }
  }

  /**
   * Under a constant sample the estimate converges geometrically: after `k`
   * frames its distance to the sample is at most 0.99^k of the initial one.
   */
  lemma {:induction false} PingConverges(ping: real, delta: real, k: nat)
    ensures Abs(PingAfter(ping, delta, k) - delta) <= Pow(0.99, k) * Abs(ping - delta)
  {
    if k > 0 {
      PingConverges(ping, delta, k - 1);
      var prev := PingAfter(ping, delta, k - 1);
      var p, a := Pow(0.99, k - 1), Abs(ping - delta);
      assert PingAfter(ping, delta, k) == NextPing(prev, delta);
      assert Pow(0.99, k) == 0.99 * p;
      ContractStep(prev, delta, p * a);
      Associate(0.99, p, a);
    }
  }

  /** Under a constant sample the estimate never moves away from it. */
  lemma PingNeverMovesAway(ping: real, delta: real, k: nat)
    ensures Abs(PingAfter(ping, delta, k) - delta) <= Abs(ping - delta)
  {
    PingConverges(ping, delta, k);
    PowInUnit(0.99, k);
    ScaleWithin(Pow(0.99, k), Abs(ping - delta));
  }

  lemma ContractStep(ping: real, delta: real, bound: real)
    requires Abs(ping - delta) <= bound
    ensures Abs(NextPing(ping, delta) - delta) <= 0.99 * bound
  {
  }

  lemma Associate(x: real, y: real, z: real)
    ensures x * (y * z) == (x * y) * z
  {
  }

  /** Once the estimate equals the sample, further frames with that sample leave it there. */
  lemma {:induction false} PingSettles(delta: real, k: nat)
    ensures PingAfter(delta, delta, k) == delta
  {
    PingConverges(delta, delta, k);
  }

  /** The estimate stays within any range that holds the start and every sample. */
  lemma {:induction false} PingStaysInRange(ping: real, deltas: seq<real>, lo: real, hi: real)
    requires lo <= ping <= hi
    requires forall i :: 0 <= i < |deltas| ==> lo <= deltas[i] <= hi
    ensures lo <= PingOver(ping, deltas) <= hi
    decreases |deltas|
  {
    if deltas != [] {
      PingStaysInRange(NextPing(ping, deltas[0]), deltas[1..], lo, hi);
    }
  }

  /**
   * A non-positive estimate is treated as "no estimate yet": a run of samples
   * that are all non-positive is never averaged, the estimate is the last one.
   */
  lemma {:induction false} NonPositivePingFollowsLastSample(ping: real, deltas: seq<real>)
    requires ping <= 0.0 && deltas != []
    requires forall i :: 0 <= i < |deltas| ==> deltas[i] <= 0.0
    ensures PingOver(ping, deltas) == deltas[|deltas| - 1]
    decreases |deltas|
  {
    if |deltas| > 1 {
      NonPositivePingFollowsLastSample(NextPing(ping, deltas[0]), deltas[1..]);
    }
  }

  /**
   * What the sample measures when both clocks run at the same rate.  The
   * sender clock reads local time plus `offset`; a time-base message left the
   * sender `timeBaseLatency` ticks before it arrived at local time `resync`;
   * the previous data message arrived at `previous`; this one left
   * `latency` ticks before `now`.  The sample is then the frame latency minus
   * the time-base latency plus the gap between the previous frame and the
   * resync, because the resync does not move `SubscriberPreviousTime`.
   */
  lemma SampleUnderEqualClockRates(offset: int, resync: int, timeBaseLatency: int,
                                   previous: int, now: int, latency: int)
    ensures var timeBase := (resync - timeBaseLatency) + offset;
      var advanced := timeBase + (now - previous);
      var sent := (now - latency) + offset;
      Delta(advanced, sent) == TotalMilliseconds(latency - timeBaseLatency + (resync - previous))
  {
  }
}
