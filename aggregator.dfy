/**
 * Frames-per-second and transfer-speed statistics.  Both ends count frames
 * and bytes over a window of about one second; when the window closes,
 * `UpdateStats` folds the window into 0.9 / 0.1 moving averages (the first
 * value is taken as it is) and the window starts again.  Stopwatch readings
 * are clock values in TimeSpan ticks.
 */
module Aggregator {
  import opened Numeric

  const BytesPerMegabyte: int := 1024 * 1024
  const TicksPerSecond: int := 10000000
  const WindowMilliseconds: int := 1000

  /** The C# `(int)` conversion of a double: rounds toward zero. */
  function Trunc(x: real): (r: int)
    ensures x >= 0.0 ==> r as real <= x < r as real + 1.0
    ensures x < 0.0 ==> r as real - 1.0 < x <= r as real
  {
    if x >= 0.0 then x.Floor else -((-x).Floor)
  }

  /**
   * The new FPS: the frame count of the window when no FPS is known yet,
   * otherwise the truncated 0.9 / 0.1 average of the old value and the count.
   */
  function NextFps(fps: int, counter: int): (r: int)
    ensures fps == 0 ==> r == counter
    ensures fps != 0 ==> Abs(r as real - (0.9 * fps as real + 0.1 * counter as real)) < 1.0
    ensures fps != 0 && 0.9 * fps as real + 0.1 * counter as real >= 0.0 ==>
      r as real <= 0.9 * fps as real + 0.1 * counter as real < r as real + 1.0
    ensures fps != 0 && 0.9 * fps as real + 0.1 * counter as real < 0.0 ==>
      r as real - 1.0 < 0.9 * fps as real + 0.1 * counter as real <= r as real
    ensures Min(fps, counter) <= r <= Max(fps, counter)
    ensures counter == fps ==> r == fps
  {
    if fps != 0 then Trunc(fps as real * 0.9 + 0.1 * counter as real) else counter
  }

  /** Megabytes per second over a window. */
  function Instant(totalBytes: int, seconds: real): real
    requires seconds > 0.0
  {
    (totalBytes as real / BytesPerMegabyte as real) / seconds
  }

  /**
   * The new transfer speed: the window's speed when the old one is zero,
   * otherwise the 0.9 / 0.1 average of the two.
   */
  function NextTransferSpeed(speed: real, totalBytes: int, seconds: real): (r: real)
    requires seconds > 0.0
    ensures speed == 0.0 ==> r == Instant(totalBytes, seconds)
    ensures speed != 0.0 ==> r - Instant(totalBytes, seconds) == 0.9 * (speed - Instant(totalBytes, seconds))
    ensures Between(r, speed, Instant(totalBytes, seconds))
    ensures speed == Instant(totalBytes, seconds) ==> r == speed
  {
    var totalMB := totalBytes as real / BytesPerMegabyte as real;
    if speed != 0.0 then speed * 0.9 + 0.1 * (totalMB / seconds) else totalMB / seconds
  }

  /** The shared telemetry `UpdateStats` reads and writes. */
  datatype Stats = Stats(fps: int, transferSpeed: real, fpsCounter: int)

  function UpdateStats(s: Stats, totalBytes: int, seconds: real): Stats
    requires seconds > 0.0
  {
    Stats(NextFps(s.fps, s.fpsCounter), NextTransferSpeed(s.transferSpeed, totalBytes, seconds), 0)
  }

  /** A counting window: the statistics, the bytes counted since `start`, and the stopwatch start. */
  datatype Window = Window(stats: Stats, bytes: int, start: int)

  /** `Stopwatch.ElapsedMilliseconds` (whole milliseconds) at `clock` for a stopwatch started at `start`. */
  function ElapsedMilliseconds(start: int, clock: int): int
  {
    (clock - start) / TicksPerMillisecond
  }

  /** `Stopwatch.Elapsed.TotalSeconds` at `clock`. */
  function ElapsedSeconds(start: int, clock: int): real
  {
    (clock - start) as real / TicksPerSecond as real
  }

  lemma FullWindowLastsASecond(start: int, clock: int)
    requires ElapsedMilliseconds(start, clock) >= WindowMilliseconds
    ensures ElapsedSeconds(start, clock) >= 1.0
  {
    assert clock - start >= TicksPerSecond;
  }

  /** One more frame of `length` bytes counted into the window. */
  function Tally(w: Window, length: int): Window
  {
    w.(stats := w.stats.(fpsCounter := w.stats.fpsCounter + 1), bytes := w.bytes + length)
  }

  /** Closing a window at `clock`: update the statistics, clear the byte count, restart the stopwatch. */
  function Roll(w: Window, clock: int): (r: Window)
    requires ElapsedMilliseconds(w.start, clock) >= WindowMilliseconds
    ensures r.bytes == 0 && r.start == clock && r.stats.fpsCounter == 0
  {
    FullWindowLastsASecond(w.start, clock);
    Window(UpdateStats(w.stats, w.bytes, ElapsedSeconds(w.start, clock)), 0, clock)
  }

  /** The receiver closes its window once at least a second has elapsed. */
  predicate ReceiverWindowCloses(w: Window, clock: int)
  {
    ElapsedMilliseconds(w.start, clock) >= WindowMilliseconds
  }

  /** The receiver's accounting of one data message of `length` bytes arriving at `clock`. */
  function Receive(w: Window, length: int, clock: int): Window
  {
    var counted := Tally(w, length);
    if ReceiverWindowCloses(w, clock) then Roll(counted, clock) else counted
  }

  datatype Arrival = Arrival(length: nat, clock: int)

  /** The receiver's accounting of a sequence of data messages, in arrival order. */
  function ReceiveAll(w: Window, arrivals: seq<Arrival>): Window
    decreases |arrivals|
  {
    if arrivals == [] then w
    else ReceiveAll(Receive(w, arrivals[0].length, arrivals[0].clock), arrivals[1..])
  }

  function TotalLength(arrivals: seq<Arrival>): int
    decreases |arrivals|
  {
    if arrivals == [] then 0 else arrivals[0].length + TotalLength(arrivals[1..])
  }

  /** No arrival reaches the end of the window. */
  predicate Quiet(w: Window, arrivals: seq<Arrival>)
  {
    forall i :: 0 <= i < |arrivals| ==> !ReceiverWindowCloses(w, arrivals[i].clock)
  }

  /**
   * Within a window every arrival adds its full length to the byte count and
   * one to the frame counter; nothing else changes.
   */
  lemma {:induction false} QuietWindow(w: Window, arrivals: seq<Arrival>)
    requires Quiet(w, arrivals)
    ensures ReceiveAll(w, arrivals)
         == w.(stats := w.stats.(fpsCounter := w.stats.fpsCounter + |arrivals|),
               bytes := w.bytes + TotalLength(arrivals))
    decreases |arrivals|
  {
    if arrivals != [] {
      var next := Receive(w, arrivals[0].length, arrivals[0].clock);
      assert Quiet(next, arrivals[1..]) by {
        forall i | 0 <= i < |arrivals[1..]|
          ensures !ReceiverWindowCloses(next, arrivals[1..][i].clock)
        {
          assert arrivals[1..][i] == arrivals[i + 1];
        }
      }
      QuietWindow(next, arrivals[1..]);
    }
  }

  lemma {:induction false} ReceiveAllAppend(w: Window, arrivals: seq<Arrival>, last: Arrival)
    ensures ReceiveAll(w, arrivals + [last]) == Receive(ReceiveAll(w, arrivals), last.length, last.clock)
    decreases |arrivals|
  {
    if arrivals == [] {
      assert arrivals + [last] == [last];
    } else {
      assert (arrivals + [last])[1..] == arrivals[1..] + [last];
      ReceiveAllAppend(Receive(w, arrivals[0].length, arrivals[0].clock), arrivals[1..], last);
    }
  }

  /**
   * A window that closes on its last arrival: the statistics are updated
   * with every frame and every byte of the window, including the closing one.
   */
  lemma ClosingWindow(w: Window, arrivals: seq<Arrival>, last: Arrival)
    requires Quiet(w, arrivals)
    requires ReceiverWindowCloses(w, last.clock)
    ensures ElapsedSeconds(w.start, last.clock) >= 1.0
    ensures ReceiveAll(w, arrivals + [last])
         == Window(UpdateStats(w.stats.(fpsCounter := w.stats.fpsCounter + |arrivals| + 1),
                               w.bytes + TotalLength(arrivals) + last.length,
                               ElapsedSeconds(w.start, last.clock)),
                   0, last.clock)
  {
    FullWindowLastsASecond(w.start, last.clock);
    ReceiveAllAppend(w, arrivals, last);
    QuietWindow(w, arrivals);
  }

  /**
   * The first window of a session with no statistics yet: FPS becomes the
   * number of frames and the speed the window's megabytes per second.
   */
  lemma ColdWindow(w: Window, arrivals: seq<Arrival>, last: Arrival)
    requires w.stats == Stats(0, 0.0, 0) && w.bytes == 0
    requires Quiet(w, arrivals)
    requires ReceiverWindowCloses(w, last.clock)
    ensures var r := ReceiveAll(w, arrivals + [last]);
      ElapsedSeconds(w.start, last.clock) >= 1.0 &&
      r.stats == Stats(|arrivals| + 1,
                       Instant(TotalLength(arrivals) + last.length, ElapsedSeconds(w.start, last.clock)),
                       0)
  {
    ClosingWindow(w, arrivals, last);
  }

  /**
   * A window that repeats the averaged values (the same frame count and the
   * same megabytes per second) leaves FPS and the speed where they are.
   */
  lemma SteadyWindow(w: Window, arrivals: seq<Arrival>, last: Arrival)
    requires w.stats.fpsCounter == 0 && w.bytes == 0
    requires Quiet(w, arrivals)
    requires ReceiverWindowCloses(w, last.clock)
    requires w.stats.fps == |arrivals| + 1
    requires ElapsedSeconds(w.start, last.clock) > 0.0
    requires w.stats.transferSpeed == Instant(TotalLength(arrivals) + last.length, ElapsedSeconds(w.start, last.clock))
    ensures ReceiveAll(w, arrivals + [last]).stats == w.stats
  {
    ClosingWindow(w, arrivals, last);
  }

  lemma {:induction false} UniformLength(arrivals: seq<Arrival>, length: nat)
    requires forall i :: 0 <= i < |arrivals| ==> arrivals[i].length == length
    ensures TotalLength(arrivals) == |arrivals| * length
    decreases |arrivals|
  {
    if arrivals != [] {
      UniformLength(arrivals[1..], length);
    }
  }

  /**
   * A steady stream of ten frames a second, each a 100000-byte image behind
   * its 16-byte stamp: the first window gives FPS 10 and the window's
   * megabytes per second, and an identical second window changes neither.
   */
  lemma SteadyStream(start: int)
    ensures var frames := seq(9, i => Arrival(100016, start + i * 1000000));
      var w1 := ReceiveAll(Window(Stats(0, 0.0, 0), 0, start), frames + [Arrival(100016, start + 10000000)]);
      var later := seq(9, i => Arrival(100016, start + 10000000 + i * 1000000));
      var w2 := ReceiveAll(w1, later + [Arrival(100016, start + 20000000)]);
      && w1.stats == Stats(10, 1000160.0 / 1048576.0, 0)
      && w2.stats == w1.stats
  {
    var frames := seq(9, i => Arrival(100016, start + i * 1000000));
    var last := Arrival(100016, start + 10000000);
    var w0 := Window(Stats(0, 0.0, 0), 0, start);
    assert Quiet(w0, frames) by {
      forall i | 0 <= i < |frames| ensures !ReceiverWindowCloses(w0, frames[i].clock) {
        assert ElapsedMilliseconds(start, frames[i].clock) == i * 100;
      }
    }
    assert ElapsedMilliseconds(start, last.clock) == 1000;
    assert ElapsedSeconds(start, last.clock) == 1.0;
    UniformLength(frames, 100016);
    ColdWindow(w0, frames, last);
    var w1 := ReceiveAll(w0, frames + [last]);
    assert w1.start == last.clock && w1.bytes == 0 by {
      ClosingWindow(w0, frames, last);
    }
    var later := seq(9, i => Arrival(100016, start + 10000000 + i * 1000000));
    var next := Arrival(100016, start + 20000000);
    assert Quiet(w1, later) by {
      forall i | 0 <= i < |later| ensures !ReceiverWindowCloses(w1, later[i].clock) {
        assert ElapsedMilliseconds(w1.start, later[i].clock) == i * 100;
      }
    }
    assert ElapsedMilliseconds(w1.start, next.clock) == 1000;
    assert ElapsedSeconds(w1.start, next.clock) == 1.0;
    UniformLength(later, 100016);
    SteadyWindow(w1, later, next);
  }
}
