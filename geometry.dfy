/**
 * What the audio manager's render methods draw, as values: the rectangles of
 * the bar layouts (`RenderAudio`, `RenderAudioSymmetric`,
 * `RenderAudioFourWaySym`, `RenderAudioWithSmoothing`) and the curve
 * segments of `RenderAudioCurve`.  The window size macros are parameters:
 * `W` and `H` are taken to be integer macros, so `W / k` and `H / 2` are
 * taken to be integer divisions before the conversion to float.
 */
module BarGeometry {
  import opened Globals
  import opened Curve

  /**
   * A filled rectangle as drawn: top-left corner, size, and the two
   * arguments the fill colour is computed from (`GetColor(shadeIndex, shadeMag)`).
   */
  datatype Rect = Rect(x: real, y: real, width: real, height: real, shadeIndex: nat, shadeMag: real)

  /**
   * The four layouts: bars from the left edge standing on the bottom,
   * mirrored bars standing on the bottom, mirrored bars centred on the
   * vertical middle around an integer half height, and the smoothed mirrored
   * bars centred around the exact half height.
   */
  datatype Layout = Default | Symmetric | FourWay | Centered

  /** The width of one bar: the window width over the number of bar slots, in integer division. */
  function BarWidth(layout: Layout, W: nat): (w: real)
    ensures w >= 0.0
  {
    if layout.Default? then (W / RENDER_BARS) as real else (W / (RENDER_BARS * 2)) as real
  }

  /** The x coordinate mirrored layouts grow outwards from. */
  function Mid(W: nat): real { (W / 2) as real }

  /** Whether a bar of this height is drawn at all. */
  predicate Visible(layout: Layout, h: real)
  {
    if layout.Centered? then h > 0.0 else h > 0.1
  }

  /** Rectangles per drawn bar. */
  function PerBar(layout: Layout): nat
  {
    if layout.Default? then 1 else 2
  }

  /** The top edge of a bar of height h. */
  function Top(layout: Layout, h: real, H: nat): real
  {
    match layout
    case Default => H as real - h
    case Symmetric => H as real - h
    case FourWay => (H / 2) as real - h / 2.0
    case Centered => (H as real - h) / 2.0
  }

  /** The rectangles drawn for bar i of height h. */
  function BarRects(layout: Layout, i: nat, h: real, W: nat, H: nat): (rs: seq<Rect>)
    ensures |rs| == PerBar(layout)
    ensures forall r :: r in rs ==>
      r.width == BarWidth(layout, W) && r.height == h && r.y == Top(layout, h, H) && r.shadeIndex == i && r.shadeMag == h
    ensures layout.Default? ==> rs[0].x == BarWidth(layout, W) * (i as real)
    ensures !layout.Default? ==>
      rs[0].x == Mid(W) + (i as real) * BarWidth(layout, W) && rs[1].x == Mid(W) - (i as real) * BarWidth(layout, W)
  {
    var bw := BarWidth(layout, W);
    var y := Top(layout, h, H);
    if layout.Default? then [Rect(bw * (i as real), y, bw, h, i, h)]
    else [Rect(Mid(W) + (i as real) * bw, y, bw, h, i, h), Rect(Mid(W) - (i as real) * bw, y, bw, h, i, h)]
  }

  /** The two rectangles of a mirrored bar are reflections of each other about the middle. */
  lemma MirroredPair(layout: Layout, i: nat, h: real, W: nat, H: nat)
    requires !layout.Default?
    ensures BarRects(layout, i, h, W, H)[0].x + BarRects(layout, i, h, W, H)[1].x == 2.0 * Mid(W)
    ensures BarRects(layout, i, h, W, H)[0].(x := 0.0) == BarRects(layout, i, h, W, H)[1].(x := 0.0)
  {
  }

  /** Where each layout anchors a bar: on the bottom edge, or centred on a half height. */
  lemma BarAnchors(layout: Layout, i: nat, h: real, W: nat, H: nat, r: Rect)
    requires r in BarRects(layout, i, h, W, H)
    ensures (layout.Default? || layout.Symmetric?) ==> r.y + r.height == H as real
    ensures layout.FourWay? ==> r.y + r.height / 2.0 == (H / 2) as real
    ensures layout.Centered? ==> r.y + r.height / 2.0 == (H as real) / 2.0
  {
  }

  /** Everything drawn for the bars of `hs`, in loop order. */
  function Render(layout: Layout, hs: seq<real>, W: nat, H: nat): seq<Rect>
  {
    if hs == [] then []
    else
      var i := |hs| - 1;
      Render(layout, hs[..i], W, H) + (if Visible(layout, hs[i]) then BarRects(layout, i, hs[i], W, H) else [])
  }

  /** Drawing one more bar appends its rectangles when it is visible. */
  lemma RenderExtend(layout: Layout, hs: seq<real>, i: nat, W: nat, H: nat)
    requires i < |hs|
    ensures Render(layout, hs[..i + 1], W, H) ==
      Render(layout, hs[..i], W, H) + (if Visible(layout, hs[i]) then BarRects(layout, i, hs[i], W, H) else [])
  {
    assert hs[..i + 1][..i] == hs[..i];
  }

  /** The number of bars of `hs` that are drawn. */
  function VisibleCount(layout: Layout, hs: seq<real>): nat
  {
    if hs == [] then 0
    else VisibleCount(layout, hs[..|hs| - 1]) + (if Visible(layout, hs[|hs| - 1]) then 1 else 0)
  }

  /** Each drawn bar contributes its one or two rectangles, and hidden bars nothing. */
  lemma {:induction false} RenderCount(layout: Layout, hs: seq<real>, W: nat, H: nat)
    ensures |Render(layout, hs, W, H)| == PerBar(layout) * VisibleCount(layout, hs)
  {
    if hs != [] {
      RenderCount(layout, hs[..|hs| - 1], W, H);
    }
  }

  /** A rectangle is drawn exactly when it belongs to a visible bar. */
  lemma {:induction false} RenderMembership(layout: Layout, hs: seq<real>, W: nat, H: nat, r: Rect)
    ensures r in Render(layout, hs, W, H) <==>
      exists i :: 0 <= i < |hs| && Visible(layout, hs[i]) && r in BarRects(layout, i, hs[i], W, H)
  {
    if hs != [] {
      var k := |hs| - 1;
      var front := hs[..k];
      RenderMembership(layout, front, W, H, r);
      if r in Render(layout, hs, W, H) {
        if r in Render(layout, front, W, H) {
          var i :| 0 <= i < |front| && Visible(layout, front[i]) && r in BarRects(layout, i, front[i], W, H);
          assert hs[i] == front[i];
        } else {
          assert Visible(layout, hs[k]) && r in BarRects(layout, k, hs[k], W, H);
        }
      }
      if exists i :: 0 <= i < |hs| && Visible(layout, hs[i]) && r in BarRects(layout, i, hs[i], W, H) {
        var i :| 0 <= i < |hs| && Visible(layout, hs[i]) && r in BarRects(layout, i, hs[i], W, H);
        if i < k {
          assert front[i] == hs[i];
        }
      }
    }
  }

  /** Every drawn rectangle is taller than the layout's threshold and comes from one bar of `hs`. */
  lemma RenderedBarsAreVisible(layout: Layout, hs: seq<real>, W: nat, H: nat, r: Rect)
    requires r in Render(layout, hs, W, H)
    ensures r.shadeIndex < |hs| && r.height == hs[r.shadeIndex] && Visible(layout, r.height)
  {
    RenderMembership(layout, hs, W, H, r);
  }

  // ---------------------------------------------------------------------
  // RenderAudioCurve
  // ---------------------------------------------------------------------

  /**
   * One curve drawn by `RenderAudioCurve`: its start, end and control points
   * and the arguments its colour is computed from.
   */
  datatype CurveDraw = CurveDraw(start: Vec2, end: Vec2, control: Vec2, shadeIndex: nat, shadeMag: real)

  /** The horizontal distance between consecutive bins: W over a third of the bin count, in integer division. */
  function WidthScale(W: nat, bins: nat): real
    requires bins >= 3
  {
    (W / (bins / 3)) as real
  }

  /** The even bins `RenderAudioCurve`'s drawing loop starts a segment at, as written: every even i below the bin count. */
  function LoopStartsAsWritten(bins: nat): (s: seq<nat>)
    ensures |s| == (bins + 1) / 2
    ensures forall k :: 0 <= k < |s| ==> s[k] == 2 * k && s[k] < bins
  {
    seq((bins + 1) / 2, k requires 0 <= k < (bins + 1) / 2 => 2 * k)
  }

  /**
   * The loop as written reads the heights at i, i + 1 and i + 2, so its last
   * segment reads past the end for every non-empty spectrum: with the 240
   * bins of the half spectrum, i = 238 reads index 240.
   */
  lemma CurveReadsPastEnd(bins: nat)
    requires bins > 0
    ensures exists k :: 0 <= k < |LoopStartsAsWritten(bins)| && LoopStartsAsWritten(bins)[k] + 2 >= bins
    ensures bins == 240 ==> LoopStartsAsWritten(bins)[119] == 238
  {
    var s := LoopStartsAsWritten(bins);
    var k := |s| - 1;
    assert s[k] + 2 >= bins;
  }

  /** The even bins the drawing loop visits once its bound keeps i + 2 inside the heights. */
  function SegmentStarts(bins: nat): (s: seq<nat>)
    ensures forall k :: 0 <= k < |s| ==> s[k] == 2 * k && s[k] + 2 < bins
  {
    if bins < 3 then [] else seq((bins - 1) / 2, k requires 0 <= k < (bins - 1) / 2 => 2 * k)
  }

  /** The corrected loop still visits every even bin whose segment fits, and only drops the one that reads past the end. */
  lemma SegmentStartsComplete(bins: nat, i: nat)
    requires i % 2 == 0
    ensures i + 2 < bins <==> i / 2 < |SegmentStarts(bins)|
  {
  }

  /** The two curves drawn for the segment starting at even bin i: the upper half, then its reflection below the middle. */
  function SegmentCurves(hs: seq<real>, i: nat, W: nat, H: nat): (cs: seq<CurveDraw>)
    requires i + 2 < |hs|
    ensures |cs| == 2
    ensures cs[0].start.x == cs[1].start.x && cs[0].end.x == cs[1].end.x && cs[0].control.x == cs[1].control.x
    ensures cs[0].start.y + cs[1].start.y == 2.0 * ((H / 2) as real)
    ensures cs[0].end.y + cs[1].end.y == 2.0 * ((H / 2) as real)
    ensures cs[0].control.y + cs[1].control.y == 2.0 * ((H / 2) as real)
    ensures cs[0].shadeIndex == cs[1].shadeIndex == i && cs[0].shadeMag == cs[1].shadeMag == hs[i + 1]
  {
    var ws := WidthScale(W, |hs|);
    var mid := (H / 2) as real;
    var top := CurveDraw(Vec2((i as real) * ws, mid - hs[i] / 2.0),
                         Vec2(((i + 2) as real) * ws, mid - hs[i + 2] / 2.0),
                         Vec2(((i + 1) as real) * ws, mid - hs[i + 1] / 2.0), i, hs[i + 1]);
    var bottom := CurveDraw(Vec2((i as real) * ws, mid + hs[i] / 2.0),
                            Vec2(((i + 2) as real) * ws, mid + hs[i + 2] / 2.0),
                            Vec2(((i + 1) as real) * ws, mid + hs[i + 1] / 2.0), i, hs[i + 1]);
    [top, bottom]
  }

  /** Everything the corrected drawing loop draws for its first `count` segments, in order. */
  function CurveRender(hs: seq<real>, count: nat, W: nat, H: nat): (cs: seq<CurveDraw>)
    requires count <= |SegmentStarts(|hs|)|
    ensures |cs| == 2 * count
  {
    seq(2 * count, j requires 0 <= j < 2 * count => SegmentCurves(hs, 2 * (j / 2), W, H)[j % 2])
  }

  /** Drawing one more segment appends its two curves. */
  lemma CurveRenderStep(hs: seq<real>, count: nat, W: nat, H: nat)
    requires count < |SegmentStarts(|hs|)|
    ensures CurveRender(hs, count + 1, W, H) == CurveRender(hs, count, W, H) + SegmentCurves(hs, 2 * count, W, H)
  {
    var a := CurveRender(hs, count + 1, W, H);
    var b := CurveRender(hs, count, W, H) + SegmentCurves(hs, 2 * count, W, H);
    forall j | 0 <= j < |a|
      ensures a[j] == b[j]
    {
      if j >= 2 * count {
        assert j / 2 == count;
      }
    }
  }

  /** The number of segments the drawing loop has drawn once it reaches even bin i. */
  function SegmentsBefore(bins: nat, i: nat): (k: nat)
    ensures k <= |SegmentStarts(bins)|
  {
    if i / 2 < |SegmentStarts(bins)| then i / 2 else |SegmentStarts(bins)|
  }

  /** One iteration of the drawing loop at even bin i: it draws segment i exactly when i + 2 is inside the heights. */
  lemma CurveLoopStep(hs: seq<real>, i: nat, W: nat, H: nat)
    requires i % 2 == 0 && i < |hs|
    ensures i + 2 < |hs| ==>
      CurveRender(hs, SegmentsBefore(|hs|, i + 2), W, H) == CurveRender(hs, SegmentsBefore(|hs|, i), W, H) + SegmentCurves(hs, i, W, H)
    ensures i + 2 >= |hs| ==> SegmentsBefore(|hs|, i + 2) == SegmentsBefore(|hs|, i)
  {
    if i + 2 < |hs| {
      assert SegmentsBefore(|hs|, i) == i / 2 && SegmentsBefore(|hs|, i + 2) == i / 2 + 1;
      CurveRenderStep(hs, i / 2, W, H);
      assert 2 * (i / 2) == i;
    }
  }

  /** Consecutive segments join: each upper curve starts where the previous one ended, and so does each lower curve. */
  lemma SegmentsJoin(hs: seq<real>, count: nat, W: nat, H: nat, k: nat)
    requires count <= |SegmentStarts(|hs|)| && 0 < k < count
    ensures CurveRender(hs, count, W, H)[2 * k].start == CurveRender(hs, count, W, H)[2 * k - 2].end
    ensures CurveRender(hs, count, W, H)[2 * k + 1].start == CurveRender(hs, count, W, H)[2 * k - 1].end
  {
    var cs := CurveRender(hs, count, W, H);
    assert (2 * k) / 2 == k && (2 * k - 2) / 2 == k - 1;
    assert (2 * k + 1) / 2 == k && (2 * k - 1) / 2 == k - 1;
    assert 2 * (k - 1) + 2 == 2 * k;
  }
}
