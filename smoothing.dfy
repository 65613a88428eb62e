/**
 * The asymmetric smoothing of bar heights that `RenderAudioWithSmoothing`
 * and `RenderAudioCurve` apply before drawing: a rising bar is shown at its
 * new height at once, a falling bar decays towards it by the coefficient
 * `c` (SMOOTHING_COEF), and a bar with no positive magnitude drops to zero.
 * These functions are the specification the audio manager's loops are
 * proved against.
 */
module Smoothing {

  /** The smoothed height of a bar whose raw magnitude `m` is positive. */
  function Smoothed(c: real, first: bool, prev: real, m: real): (s: real)
    ensures s >= m
    ensures first ==> s == m
  {
    if first then m
    else
      var blend := c * prev + (1.0 - c) * m;
      if blend < m then m else blend
  }

  function Max(a: real, b: real): (m: real)
    ensures m >= a && m >= b && (m == a || m == b)
  {
    if a < b then b else a
  }

  /**
   * The smoothed height stored for one bar: zero when the raw magnitude is
   * not positive, the smoothed value otherwise.
   */
  function SmoothedOrZero(c: real, first: bool, prev: real, m: real): (s: real)
    ensures m <= 0.0 ==> s == 0.0
    ensures m > 0.0 ==> s == Smoothed(c, first, prev, m)
  {
    if m <= 0.0 then 0.0 else Smoothed(c, first, prev, m)
  }

  /**
   * The previous-heights vector after one smoothing pass over the first
   * `bars` bars; the bars after them keep their stored heights.
   */
  function SmoothPass(c: real, first: bool, prev: seq<real>, mags: seq<real>, bars: nat): (p: seq<real>)
    requires bars <= |prev| && bars <= |mags|
    ensures |p| == |prev|
    ensures forall i :: 0 <= i < bars ==> p[i] == SmoothedOrZero(c, first, prev[i], mags[i])
    ensures forall i :: bars <= i < |prev| ==> p[i] == prev[i]
  {
    seq(|prev|, i requires 0 <= i < |prev| =>
      if i < bars then SmoothedOrZero(c, first, prev[i], mags[i]) else prev[i])
  }

  /** Smoothing one more bar stores that bar's value and leaves the others as the shorter pass left them. */
  lemma SmoothPassStep(c: real, first: bool, prev: seq<real>, mags: seq<real>, bars: nat)
    requires bars < |prev| && bars < |mags|
    ensures SmoothPass(c, first, prev, mags, bars + 1) ==
      SmoothPass(c, first, prev, mags, bars)[bars := SmoothedOrZero(c, first, prev[bars], mags[bars])]
  {
  }

  /** A rising (or steady) bar is shown at exactly its new height: rises are never smoothed. */
  lemma RiseIsExact(c: real, first: bool, prev: real, m: real)
    requires 0.0 <= c <= 1.0 && 0.0 < m && prev <= m
    ensures Smoothed(c, first, prev, m) == m
  {
    if !first {
      assert c * prev <= c * m;
    }
  }

  /** A falling bar lands strictly between its new height and its previous height. */
  lemma DropIsSmoothed(c: real, prev: real, m: real)
    requires 0.0 < c < 1.0 && 0.0 < m < prev
    ensures m < Smoothed(c, false, prev, m) < prev
  {
    var blend := c * prev + (1.0 - c) * m;
    assert blend - m == c * (prev - m);
    assert prev - blend == (1.0 - c) * (prev - m);
    ProductPositive(c, prev - m);
    ProductPositive(1.0 - c, prev - m);
    assert m < blend < prev;
    assert Smoothed(c, false, prev, m) == blend;
  }

  lemma ProductPositive(a: real, b: real)
    requires a > 0.0 && b > 0.0
    ensures a * b > 0.0
  {
  }

  /** The smoothed height is the larger of the blend and the new height. */
  lemma SmoothedIsMaxOfBlend(c: real, prev: real, m: real)
    ensures Smoothed(c, false, prev, m) == Max(c * prev + (1.0 - c) * m, m)
  {
  }

  /** A smoothed bar is stored positive exactly when its raw magnitude is positive. */
  lemma StoredPositiveIffRaw(c: real, first: bool, prev: seq<real>, mags: seq<real>, bars: nat, i: nat)
    requires bars <= |prev| && bars <= |mags| && i < bars
    ensures SmoothPass(c, first, prev, mags, bars)[i] > 0.0 <==> mags[i] > 0.0
  {
  }

  /** Smoothing keeps stored heights non-negative when they were, for any coefficient in [0, 1]. */
  lemma SmoothPassNonNegative(c: real, first: bool, prev: seq<real>, mags: seq<real>, bars: nat)
    requires bars <= |prev| && bars <= |mags|
    requires forall i :: 0 <= i < |prev| ==> prev[i] >= 0.0
    ensures forall i :: 0 <= i < |prev| ==> SmoothPass(c, first, prev, mags, bars)[i] >= 0.0
  {
  }

  /**
   * A constant signal is a fixed point: once every stored height equals a
   * positive constant magnitude, smoothing it again changes nothing.
   */
  lemma ConstantSignalIsFixed(c: real, prev: seq<real>, mags: seq<real>, bars: nat, h: real)
    requires 0.0 <= c <= 1.0 && h > 0.0
    requires bars <= |prev| && bars <= |mags|
    requires forall i :: 0 <= i < bars ==> prev[i] == h && mags[i] == h
    ensures SmoothPass(c, false, prev, mags, bars) == prev
  {
    var p := SmoothPass(c, false, prev, mags, bars);
    forall i | 0 <= i < bars
      ensures p[i] == prev[i]
    {
      RiseIsExact(c, false, h, h);
    }
  }

  /**
   * The decay is geometric: a bar that stays at magnitude m below its stored
   * height h gets within c^k of the gap after k passes, never reaching m.
   */
  function Decay(c: real, h: real, m: real, k: nat): real
  {
    if k == 0 then h else Smoothed(c, false, Decay(c, h, m, k - 1), m)
  }

  function Power(c: real, k: nat): real
  {
    if k == 0 then 1.0 else c * Power(c, k - 1)
  }

  /** One pass over a falling bar closes the gap to the new height by the factor c. */
  lemma DecayStep(c: real, d: real, m: real)
    requires 0.0 < c < 1.0 && 0.0 < m < d
    ensures Smoothed(c, false, d, m) - m == c * (d - m)
    ensures Smoothed(c, false, d, m) > m
  {
    DropIsSmoothed(c, d, m);
    var blend := c * d + (1.0 - c) * m;
    assert blend - m == c * (d - m);
  }

  lemma GapScales(c: real, d: real, m: real, p: real, g: real, next: real)
    requires next - m == c * (d - m) && d - m == p * g
    ensures next - m == (c * p) * g
  {
  }

  /** A bar that keeps falling stays strictly above its new height. */
  lemma {:induction false} DecayStaysAbove(c: real, h: real, m: real, k: nat)
    requires 0.0 < c < 1.0 && 0.0 < m < h
    ensures Decay(c, h, m, k) > m
  {
    if k > 0 {
      DecayStaysAbove(c, h, m, k - 1);
      DecayStep(c, Decay(c, h, m, k - 1), m);
    }
  }

  lemma {:induction false} DecayIsGeometric(c: real, h: real, m: real, k: nat)
    requires 0.0 < c < 1.0 && 0.0 < m < h
    ensures Decay(c, h, m, k) - m == Power(c, k) * (h - m)
  {
    if k == 0 {
      GapScales(1.0, h, m, 1.0, h - m, h);
    } else {
      DecayIsGeometric(c, h, m, k - 1);
      DecayStaysAbove(c, h, m, k - 1);
      var d := Decay(c, h, m, k - 1);
      DecayStep(c, d, m);
      GapScales(c, d, m, Power(c, k - 1), h - m, Decay(c, h, m, k));
    }
  }

  lemma {:induction false} PowerPositive(c: real, k: nat)
    requires 0.0 < c
    ensures Power(c, k) > 0.0
  {
    if k > 0 {
      PowerPositive(c, k - 1);
    }
  }

  /**
   * What the smoothing test expects of a drop to zero does not hold: after
   * heights of 1, a pass over all-zero magnitudes stores 0 for every bar
   * rather than a value strictly between 0 and 1.
   */
  lemma DropToZeroResets(c: real, prev: seq<real>, mags: seq<real>, bars: nat)
    requires bars <= |prev| && bars <= |mags|
    requires forall i :: 0 <= i < bars ==> prev[i] == 1.0 && mags[i] == 0.0
    ensures forall i :: 0 <= i < bars ==> !(0.0 < SmoothPass(c, false, prev, mags, bars)[i] < 1.0)
    ensures forall i :: 0 <= i < bars ==> SmoothPass(c, false, prev, mags, bars)[i] == 0.0
  {
  }
}
