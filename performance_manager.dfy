/**
 * `PerformanceManager` (include/PerformanceManager.h,
 * src/PerformanceManager.cpp): three start/stop benchmark timers (frame,
 * FFT, render), each counting its completed cycles and summing their
 * durations in whole microseconds, plus a system timer started by the
 * constructor. Readings of the steady clock are parameters (`now`), in
 * nanosecond ticks; counters and accumulators are unsigned 64-bit and wrap.
 */
module PerformanceManager {

  const U64_MODULUS: int := 0x1_0000_0000_0000_0000
  const I64_LIMIT: int := 0x8000_0000_0000_0000

  type u64 = x: int | 0 <= x < 0x1_0000_0000_0000_0000

  /** A steady-clock reading: a non-negative signed 64-bit count of nanosecond ticks. */
  type TimePoint = t: int | 0 <= t < 0x8000_0000_0000_0000

  /** Ticks per microsecond: `duration_cast` to microseconds divides by this and truncates. */
  const TICKS_PER_US: nat := 1000

  /**
   * One of the three benchmark timers: its running flag, the time point it
   * was started at, its cycle counter, its accumulated microseconds and the
   * duration of its latest cycle.
   */
  datatype Timer = Timer(running: bool, start: TimePoint, counter: u64, accumulator: u64, mostRecent: u64)

  /** The state every timer starts in: not running, all counts zero. */
  const IDLE: Timer := Timer(false, 0, 0, 0, 0)

  /** What `writePerformanceData` reports: the system run time and the three cycle counts. */
  datatype Report = Report(systemRunTime: int, frames: u64, ffts: u64, renders: u64)

  /** The whole microseconds between two readings of the clock, truncated. */
  function Elapsed(start: TimePoint, end: TimePoint): (d: nat)
    requires start <= end
    ensures d * TICKS_PER_US <= end - start < (d + 1) * TICKS_PER_US
    ensures d < I64_LIMIT
  {
    (end - start) / TICKS_PER_US
  }

  /** A signed 64-bit count made from an unsigned one: the same bits, read as two's complement. */
  function ToI64(x: u64): (y: int)
    ensures -I64_LIMIT <= y < I64_LIMIT
    ensures y % U64_MODULUS == x
    ensures x < I64_LIMIT <==> y == x
  {
    if x < I64_LIMIT then x else x - U64_MODULUS
  }

  /** `startX`: the timer runs from `now`; its counts are untouched. */
  function Started(t: Timer, now: TimePoint): Timer
  {
    t.(running := true, start := now)
  }

  /** `stopX`: the timer stops, counts one more cycle and records and adds its duration. */
  function Stopped(t: Timer, now: TimePoint): Timer
    requires t.start <= now
  {
    var d := Elapsed(t.start, now);
    t.(running := false, counter := (t.counter + 1) % U64_MODULUS,
       mostRecent := d, accumulator := (t.accumulator + d) % U64_MODULUS)
  }

  /** `getCurrentX`: the latest duration. */
  function Current(t: Timer): int
  {
    ToI64(t.mostRecent)
  }

  /** `getAverageX`: zero before any cycle, the integer quotient of the sum by the count after. */
  function Average(t: Timer): (a: int)
    ensures t.counter == 0 ==> a == 0
    ensures t.counter > 0 && a >= 0 ==> a * t.counter <= t.accumulator < (a + 1) * t.counter
  {
    if t.counter == 0 then 0 else ToI64(t.accumulator / t.counter)
  }

  /** The sum of a sequence of durations. */
  function Sum(ds: seq<nat>): nat
  {
    if |ds| == 0 then 0 else Sum(ds[..|ds| - 1]) + ds[|ds| - 1]
  }

  /**
   * The timer's counts are those of the cycles `ds`: the counter is their
   * number and the accumulator their sum, both modulo 2^64, and the latest
   * duration is the last of them (zero when there is none).
   */
  ghost predicate Tracks(t: Timer, ds: seq<nat>)
  {
    && t.counter == |ds| % U64_MODULUS
    && t.accumulator == Sum(ds) % U64_MODULUS
    && t.mostRecent == (if |ds| == 0 then 0 else ds[|ds| - 1])
    && (forall i :: 0 <= i < |ds| ==> ds[i] < I64_LIMIT)
  }

  lemma SumAppend(ds: seq<nat>, d: nat)
    ensures Sum(ds + [d]) == Sum(ds) + d
  {
    assert (ds + [d])[..|ds|] == ds;
  }

  lemma ModAdd(x: nat, y: nat)
    ensures (x % U64_MODULUS + y) % U64_MODULUS == (x + y) % U64_MODULUS
  {
    var q := x / U64_MODULUS;
    var r := x % U64_MODULUS;
    assert x + y == q * U64_MODULUS + (r + y);
    ModMultiple(q, r + y);
  }

  lemma ModMultiple(q: nat, z: nat)
    ensures (q * U64_MODULUS + z) % U64_MODULUS == z % U64_MODULUS
  {
    var w := z / U64_MODULUS;
    var s := z % U64_MODULUS;
    assert q * U64_MODULUS + z == (q + w) * U64_MODULUS + s;
  }

  /** Stopping a running timer records one more cycle, of the duration it returns. */
  lemma StopRecords(t: Timer, ds: seq<nat>, now: TimePoint)
    requires Tracks(t, ds) && t.running && t.start <= now
    ensures Tracks(Stopped(t, now), ds + [Elapsed(t.start, now)])
    ensures !Stopped(t, now).running
  {
    var d := Elapsed(t.start, now);
    SumAppend(ds, d);
    ModAdd(Sum(ds), d);
    ModAdd(|ds|, 1);
  }

  /** Starting a timer keeps its record of completed cycles. */
  lemma StartKeepsRecord(t: Timer, ds: seq<nat>, now: TimePoint)
    requires Tracks(t, ds)
    ensures Tracks(Started(t, now), ds) && Started(t, now).running
  {
  }

  /** The current time is the duration of the last completed cycle, zero before the first. */
  lemma CurrentIsLastCycle(t: Timer, ds: seq<nat>)
    requires Tracks(t, ds)
    ensures Current(t) == (if |ds| == 0 then 0 else ds[|ds| - 1])
  {
  }

  /** Each duration between lo and hi makes the sum lie between |ds| * lo and |ds| * hi. */
  lemma {:induction false} SumBounds(ds: seq<nat>, lo: nat, hi: nat)
    requires forall i :: 0 <= i < |ds| ==> lo <= ds[i] <= hi
    ensures |ds| * lo <= Sum(ds) <= |ds| * hi
  {
    if |ds| > 0 {
      var front := ds[..|ds| - 1];
      assert forall i :: 0 <= i < |front| ==> front[i] == ds[i];
      SumBounds(front, lo, hi);
      assert |ds| * lo == |front| * lo + lo;
      assert |ds| * hi == |front| * hi + hi;
    }
  }

  lemma FactorLess(n: nat, a: int, b: int)
    requires n > 0 && n * a < n * b
    ensures a < b
  {
  }

  lemma MulStrict(n: nat, a: int, b: int)
    requires n > 0 && a < b
    ensures n * a < n * b
  {
    assert n * b - n * a == n * (b - a);
  }

  lemma FactorAtMost(n: nat, a: int, b: int)
    requires n > 0 && n * a <= n * b
    ensures a <= b
  {
    if b < a {
      MulStrict(n, b, a);
    }
  }

  lemma DivBounds(s: nat, n: nat)
    requires n > 0
    ensures (s / n) * n <= s < (s / n + 1) * n
    ensures s / n <= s
  {
    var q := s / n;
    var r := s % n;
    assert s == q * n + r && 0 <= r < n;
    assert (q + 1) * n == q * n + n;
    MulAtLeast(q, n);
  }

  lemma MulAtLeast(q: nat, n: nat)
    requires n > 0
    ensures q <= q * n
  {
    var m: nat := n - 1;
    assert q * n == q + q * m;
  }

  /** Without wrap-around the average is the mean of the recorded cycles, rounded down. */
  lemma AverageIsMean(t: Timer, ds: seq<nat>)
    requires Tracks(t, ds) && 0 < |ds| < U64_MODULUS && Sum(ds) < I64_LIMIT
    ensures Average(t) * |ds| <= Sum(ds) < (Average(t) + 1) * |ds|
  {
    var n := |ds|;
    var s := Sum(ds);
    assert t.counter == n;
    assert t.accumulator == s;
    DivBounds(s, n);
    assert Average(t) == s / n;
  }

  /** So the average lies between the shortest and the longest recorded cycle. */
  lemma AverageBetween(t: Timer, ds: seq<nat>, lo: nat, hi: nat)
    requires Tracks(t, ds) && 0 < |ds| < U64_MODULUS && Sum(ds) < I64_LIMIT
    requires forall i :: 0 <= i < |ds| ==> lo <= ds[i] <= hi
    ensures lo <= Average(t) <= hi
  {
    AverageIsMean(t, ds);
    SumBounds(ds, lo, hi);
    QuotientBetween(Sum(ds), |ds|, Average(t), lo, hi);
  }

  /** A rounded-down quotient of a sum of n values in [lo, hi] by n lies in [lo, hi]. */
  lemma QuotientBetween(s: nat, n: nat, a: int, lo: nat, hi: nat)
    requires n > 0 && a * n <= s < (a + 1) * n
    requires n * lo <= s <= n * hi
    ensures lo <= a <= hi
  {
    assert n * lo < n * (a + 1);
    FactorLess(n, lo, a + 1);
    assert n * a <= n * hi;
    FactorAtMost(n, a, hi);
  }

  /** The average of a timer whose sums have not wrapped is the rounded-down mean of its cycles. */
  lemma AverageWithoutWrap(t: Timer, ds: seq<nat>)
    requires Tracks(t, ds)
    ensures 0 < |ds| < U64_MODULUS && Sum(ds) < I64_LIMIT ==>
      Average(t) * |ds| <= Sum(ds) < (Average(t) + 1) * |ds|
  {
    if 0 < |ds| < U64_MODULUS && Sum(ds) < I64_LIMIT {
      AverageIsMean(t, ds);
    }
  }

  class PerformanceManager {
    var systemStartTime: TimePoint
    /** The system run time in microseconds, set when the system timer is stopped. */
    var systemRunTime: int
    var systemTimerRunning: bool
    var frame: Timer
    var fft: Timer
    var render: Timer
    /** The durations of the completed cycles of each timer, in order. */
    ghost var frameTimes: seq<nat>
    ghost var fftTimes: seq<nat>
    ghost var renderTimes: seq<nat>

    /** Every timer's counts are those of its completed cycles. */
    ghost predicate Valid()
      reads this
    {
      Tracks(frame, frameTimes) && Tracks(fft, fftTimes) && Tracks(render, renderTimes)
    }

    /** The fields start at zero and not running; the constructor then starts the system timer. */
    constructor(now: TimePoint)
      ensures Valid()
      ensures systemTimerRunning && systemStartTime == now && systemRunTime == 0
      ensures frame == IDLE && fft == IDLE && render == IDLE
      ensures frameTimes == [] && fftTimes == [] && renderTimes == []
    {
      systemRunTime := 0;
      systemTimerRunning := false;
      frame := IDLE;
      fft := IDLE;
      render := IDLE;
      frameTimes := [];
      fftTimes := [];
      renderTimes := [];
      new;
      StartSystemTimer(now);
    }

    /** The destructor stops the system timer only when it is still running. */
    method Destroy(now: TimePoint)
      requires systemTimerRunning ==> systemStartTime <= now
      modifies this`systemTimerRunning
      ensures !systemTimerRunning
    {
      if systemTimerRunning {
        var _ := StopSystemTimer(now);
      }
    }

    method StartFrameTimer(now: TimePoint)
      requires Valid() && !frame.running
      modifies this`frame
      ensures Valid() && frame == Started(old(frame), now)
      ensures fft == old(fft) && render == old(render)
    {
      StartKeepsRecord(frame, frameTimes, now);
      frame := Started(frame, now);
    }

    method StopFrameTimer(now: TimePoint) returns (d: nat)
      requires Valid() && frame.running && frame.start <= now
      modifies this`frame, this`frameTimes
      ensures Valid() && !frame.running
      ensures d == Elapsed(old(frame).start, now) && frameTimes == old(frameTimes) + [d]
      ensures frame == Stopped(old(frame), now)
      ensures fft == old(fft) && render == old(render)
    {
      d := Elapsed(frame.start, now);
      StopRecords(frame, frameTimes, now);
      frame := Stopped(frame, now);
      frameTimes := frameTimes + [d];
    }

    method StartFFTTimer(now: TimePoint)
      requires Valid() && !fft.running
      modifies this`fft
      ensures Valid() && fft == Started(old(fft), now)
      ensures frame == old(frame) && render == old(render)
    {
      StartKeepsRecord(fft, fftTimes, now);
      fft := Started(fft, now);
    }

    method StopFFTTimer(now: TimePoint) returns (d: nat)
      requires Valid() && fft.running && fft.start <= now
      modifies this`fft, this`fftTimes
      ensures Valid() && !fft.running
      ensures d == Elapsed(old(fft).start, now) && fftTimes == old(fftTimes) + [d]
      ensures fft == Stopped(old(fft), now)
      ensures frame == old(frame) && render == old(render)
    {
      d := Elapsed(fft.start, now);
      StopRecords(fft, fftTimes, now);
      fft := Stopped(fft, now);
      fftTimes := fftTimes + [d];
    }

    method StartRenderTimer(now: TimePoint)
      requires Valid() && !render.running
      modifies this`render
      ensures Valid() && render == Started(old(render), now)
      ensures frame == old(frame) && fft == old(fft)
    {
      StartKeepsRecord(render, renderTimes, now);
      render := Started(render, now);
    }

    method StopRenderTimer(now: TimePoint) returns (d: nat)
      requires Valid() && render.running && render.start <= now
      modifies this`render, this`renderTimes
      ensures Valid() && !render.running
      ensures d == Elapsed(old(render).start, now) && renderTimes == old(renderTimes) + [d]
      ensures render == Stopped(old(render), now)
      ensures frame == old(frame) && fft == old(fft)
    {
      d := Elapsed(render.start, now);
      StopRecords(render, renderTimes, now);
      render := Stopped(render, now);
      renderTimes := renderTimes + [d];
    }

    /**
     * `writePerformanceData`: stops the system timer if it is still running,
     * keeping its run time, and reports that run time and the three counts.
     */
    method WritePerformanceData(now: TimePoint) returns (r: Report)
      requires Valid()
      requires systemTimerRunning ==> systemStartTime <= now
      modifies this`systemTimerRunning, this`systemRunTime
      ensures !systemTimerRunning
      ensures systemRunTime == if old(systemTimerRunning) then Elapsed(systemStartTime, now) else old(systemRunTime)
      ensures r == Report(systemRunTime, frame.counter, fft.counter, render.counter)
      ensures r.frames == |frameTimes| % U64_MODULUS && r.ffts == |fftTimes| % U64_MODULUS
      ensures r.renders == |renderTimes| % U64_MODULUS
    {
      if systemTimerRunning {
        systemRunTime := StopSystemTimer(now);
      }
      r := Report(systemRunTime, frame.counter, fft.counter, render.counter);
    }

    /** `getCurrentFFTTime`: the last FFT duration, zero before the first. */
    function CurrentFFTTime(): (d: int)
      reads this`fft, this`fftTimes
      requires Tracks(fft, fftTimes)
      ensures d == if |fftTimes| == 0 then 0 else fftTimes[|fftTimes| - 1]
    {
      CurrentIsLastCycle(fft, fftTimes);
      Current(fft)
    }

    /** `getCurrentRenderTime`: the last render duration, zero before the first. */
    function CurrentRenderTime(): (d: int)
      reads this`render, this`renderTimes
      requires Tracks(render, renderTimes)
      ensures d == if |renderTimes| == 0 then 0 else renderTimes[|renderTimes| - 1]
    {
      CurrentIsLastCycle(render, renderTimes);
      Current(render)
    }

    /** `getCurrentFrameTime`: the last frame duration, zero before the first. */
    function CurrentFrameTime(): (d: int)
      reads this`frame, this`frameTimes
      requires Tracks(frame, frameTimes)
      ensures d == if |frameTimes| == 0 then 0 else frameTimes[|frameTimes| - 1]
    {
      CurrentIsLastCycle(frame, frameTimes);
      Current(frame)
    }

    /** `getAverageFFTTime`: zero before any FFT, otherwise the rounded-down mean when nothing has wrapped. */
    function AverageFFTTime(): (a: int)
      reads this`fft, this`fftTimes
      requires Tracks(fft, fftTimes)
      ensures |fftTimes| == 0 ==> a == 0
      ensures 0 < |fftTimes| < U64_MODULUS && Sum(fftTimes) < I64_LIMIT ==>
        a * |fftTimes| <= Sum(fftTimes) < (a + 1) * |fftTimes|
    {
      AverageWithoutWrap(fft, fftTimes);
      Average(fft)
    }

    /** `getAverageRenderTime`: zero before any render, otherwise the rounded-down mean when nothing has wrapped. */
    function AverageRenderTime(): (a: int)
      reads this`render, this`renderTimes
      requires Tracks(render, renderTimes)
      ensures |renderTimes| == 0 ==> a == 0
      ensures 0 < |renderTimes| < U64_MODULUS && Sum(renderTimes) < I64_LIMIT ==>
        a * |renderTimes| <= Sum(renderTimes) < (a + 1) * |renderTimes|
    {
      AverageWithoutWrap(render, renderTimes);
      Average(render)
    }

    /** `getAverageFrameTime`: zero before any frame, otherwise the rounded-down mean when nothing has wrapped. */
    function AverageFrameTime(): (a: int)
      reads this`frame, this`frameTimes
      requires Tracks(frame, frameTimes)
      ensures |frameTimes| == 0 ==> a == 0
      ensures 0 < |frameTimes| < U64_MODULUS && Sum(frameTimes) < I64_LIMIT ==>
        a * |frameTimes| <= Sum(frameTimes) < (a + 1) * |frameTimes|
    {
      AverageWithoutWrap(frame, frameTimes);
      Average(frame)
    }

    /** `startSystemTimer`: the system timer runs from `now`. */
    method StartSystemTimer(now: TimePoint)
      modifies this`systemStartTime, this`systemTimerRunning
      ensures systemTimerRunning && systemStartTime == now
    {
      systemStartTime := now;
      systemTimerRunning := true;
    }

    /** `stopSystemTimer`: stops the system timer and returns how long it ran. */
    method StopSystemTimer(now: TimePoint) returns (d: nat)
      requires systemTimerRunning && systemStartTime <= now
      modifies this`systemTimerRunning
      ensures !systemTimerRunning && d == Elapsed(systemStartTime, now)
    {
      d := Elapsed(systemStartTime, now);
      systemTimerRunning := false;
    }
  }
}
