/**
 * `sf::Curve` (include/Curve.hpp, src/Curve.cpp): a quadratic Bezier curve
 * from a start point to an end point, bent towards a control point, kept as
 * an array of coloured vertices that every setter recomputes in place.
 * Single-precision floats are modelled as reals.
 */
module Curve {
  import opened Wrappers
  import opened Palette

  type u32 = x: int | 0 <= x < 0x1_0000_0000

  /** A point in window coordinates. */
  datatype Vec2 = Vec2(x: real, y: real)

  function Scale(k: real, v: Vec2): Vec2 { Vec2(k * v.x, k * v.y) }

  function Add(a: Vec2, b: Vec2): Vec2 { Vec2(a.x + b.x, a.y + b.y) }

  /** One vertex of the strip: a position and a colour. */
  datatype Vertex = Vertex(position: Vec2, color: Rgba)

  /** The constructor's default vertex count and thickness. */
  const DEFAULT_VERTEX_COUNT: u32 := 10
  const DEFAULT_THICKNESS: real := 10.0

  /** Above this thickness the curve is drawn as rectangles rather than as a line strip. */
  const THICK_THRESHOLD: real := 0.1

  /** B(t) = (1 - t)^2 start + 2 (1 - t) t control + t^2 end. */
  function Bezier(start: Vec2, end: Vec2, control: Vec2, t: real): Vec2
  {
    var u := 1.0 - t;
    Add(Add(Scale(u * u, start), Scale(2.0 * u * t, control)), Scale(t * t, end))
  }

  /** The parameter step between vertices: 1 / (n - 1). */
  function Step(n: nat): (s: real)
    requires n >= 2
    ensures s > 0.0 && s * ((n - 1) as real) == 1.0
  {
    1.0 / ((n - 1) as real)
  }

  /** The position of vertex i of n. */
  function CurvePoint(start: Vec2, end: Vec2, control: Vec2, n: nat, i: nat): Vec2
    requires n >= 2
  {
    Bezier(start, end, control, (i as real) * Step(n))
  }

  /** The vertex strip `updateVertices` produces: n points along the curve, all in one colour. */
  function Vertices(start: Vec2, end: Vec2, control: Vec2, n: nat, color: Rgba): (vs: seq<Vertex>)
    requires n != 1
    ensures |vs| == n
    ensures forall i :: 0 <= i < n ==> vs[i].color == color
  {
    if n == 0 then []
    else seq(n, i requires 0 <= i < n => Vertex(CurvePoint(start, end, control, n, i), color))
  }

  /** The strip begins at the start point and ends at the end point. */
  lemma CurveEndpoints(start: Vec2, end: Vec2, control: Vec2, n: nat, color: Rgba)
    requires n >= 2
    ensures Vertices(start, end, control, n, color)[0].position == start
    ensures Vertices(start, end, control, n, color)[n - 1].position == end
  {
    var t := ((n - 1) as real) * Step(n);
    assert t == 1.0;
    assert CurvePoint(start, end, control, n, n - 1) == Bezier(start, end, control, 1.0);
  }

  /** The three weights sum to one. */
  lemma WeightsSumToOne(t: real)
    ensures (1.0 - t) * (1.0 - t) + 2.0 * (1.0 - t) * t + t * t == 1.0
  {
  }

  /** Every point of a curve whose three points coincide is that point. */
  lemma DegenerateCurveIsPoint(p: Vec2, t: real)
    ensures Bezier(p, p, p, t) == p
  {
    var u := 1.0 - t;
    WeightsSumToOne(t);
    assert u * u * p.x + 2.0 * u * t * p.x + t * t * p.x == (u * u + 2.0 * u * t + t * t) * p.x;
    assert u * u * p.y + 2.0 * u * t * p.y + t * t * p.y == (u * u + 2.0 * u * t + t * t) * p.y;
  }

  lemma DegenerateStrip(p: Vec2, n: nat, color: Rgba)
    requires n != 1
    ensures forall i :: 0 <= i < n ==> Vertices(p, p, p, n, color)[i] == Vertex(p, color)
  {
    forall i | 0 <= i < n
      ensures Vertices(p, p, p, n, color)[i] == Vertex(p, color)
    {
      DegenerateCurveIsPoint(p, (i as real) * Step(n));
    }
  }

  /** The same strip with every vertex recoloured. */
  function Recolored(vs: seq<Vertex>, color: Rgba): (ws: seq<Vertex>)
    ensures |ws| == |vs|
    ensures forall i :: 0 <= i < |vs| ==> ws[i].position == vs[i].position && ws[i].color == color
  {
    seq(|vs|, i requires 0 <= i < |vs| => vs[i].(color := color))
  }

  /** Recolouring a strip gives the strip computed in the new colour. */
  lemma RecolorStrip(start: Vec2, end: Vec2, control: Vec2, n: nat, c: Rgba, d: Rgba)
    requires n != 1
    ensures Recolored(Vertices(start, end, control, n, c), d) == Vertices(start, end, control, n, d)
  {
  }

  /**
   * The thickness the constructor stores: the result of the thickness test,
   * converted back to a float.
   */
  function ConstructedThickness(thickness: real): (t: real)
    ensures t == 1.0 || t == 0.0
  {
    if thickness > THICK_THRESHOLD then 1.0 else 0.0
  }

  /** With the default thickness of 10 the constructor keeps 1, not 10. */
  lemma ConstructorLosesThickness()
    ensures ConstructedThickness(DEFAULT_THICKNESS) == 1.0 != DEFAULT_THICKNESS
  {
  }

  class Curve {
    var vertices: array<Vertex>
    var thickness: real
    /** Whether the curve is drawn thick; None while the flag is still uninitialised. */
    var isThick: Option<bool>
    var startPosition: Vec2
    var endPosition: Vec2
    var controlPosition: Vec2
    var vertexCount: u32
    var color: Rgba

    /** The array always holds exactly `vertexCount` vertices; a count of one is never reached. */
    predicate Valid()
      reads this
    {
      vertices.Length == vertexCount && vertexCount != 1
    }

    /** The strip the current points, count and colour determine. */
    function Strip(): seq<Vertex>
      reads this
      requires Valid()
    {
      Vertices(startPosition, endPosition, controlPosition, vertexCount, color)
    }

    /**
     * The constructor as written: it stores the points and the count, sets the
     * colour to white, then assigns the thickness test's result to the
     * thickness itself and leaves `isThick` uninitialised.
     */
    constructor AsWritten(start: Vec2, end: Vec2, control: Vec2,
                          vertexCount: u32 := DEFAULT_VERTEX_COUNT, thickness: real := DEFAULT_THICKNESS)
      requires vertexCount != 1
      ensures Valid() && fresh(vertices)
      ensures startPosition == start && endPosition == end && controlPosition == control
      ensures this.vertexCount == vertexCount && color == WHITE
      ensures this.thickness == ConstructedThickness(thickness) && isThick == None
      ensures vertices[..] == Strip()
    {
      startPosition := start;
      endPosition := end;
      controlPosition := control;
      this.vertexCount := vertexCount;
      vertices := new Vertex[vertexCount](_ => Vertex(Vec2(0.0, 0.0), WHITE));
      this.thickness := thickness;
      color := WHITE;
      this.thickness := if thickness > THICK_THRESHOLD then 1.0 else 0.0;
      isThick := None;
      new;
      UpdateVertices();
    }

    /**
     * The constructor as evidently intended: the thickness is kept and the
     * flag records whether it exceeds the threshold, as `setThickness` does.
     */
    constructor(start: Vec2, end: Vec2, control: Vec2,
                vertexCount: u32 := DEFAULT_VERTEX_COUNT, thickness: real := DEFAULT_THICKNESS)
      requires vertexCount != 1
      ensures Valid() && fresh(vertices)
      ensures startPosition == start && endPosition == end && controlPosition == control
      ensures this.vertexCount == vertexCount && color == WHITE
      ensures this.thickness == thickness && isThick == Some(thickness > THICK_THRESHOLD)
      ensures vertices[..] == Strip()
    {
      startPosition := start;
      endPosition := end;
      controlPosition := control;
      this.vertexCount := vertexCount;
      vertices := new Vertex[vertexCount](_ => Vertex(Vec2(0.0, 0.0), WHITE));
      this.thickness := thickness;
      color := WHITE;
      isThick := Some(thickness > THICK_THRESHOLD);
      new;
      UpdateVertices();
    }

    /** `updateVertices`: recomputes every vertex's position and colour in place. */
    method UpdateVertices()
      requires Valid()
      modifies vertices
      ensures Valid()
      ensures vertices[..] == Strip()
    {
      var n := vertexCount;
      var i := 0;
      while i < n
        invariant 0 <= i <= n
        invariant forall j :: 0 <= j < i ==> vertices[j] == Strip()[j]
      {
        vertices[i] := Vertex(CurvePoint(startPosition, endPosition, controlPosition, n, i), color);
        i := i + 1;
      }
    }

    /** `setColor`: the new colour for the curve and for every vertex; positions stay. */
    method SetColor(c: Rgba)
      requires Valid()
      modifies this`color, vertices
      ensures Valid() && color == c
      ensures vertices[..] == Recolored(old(vertices[..]), c)
    {
      color := c;
      var i := 0;
      while i < vertexCount
        invariant 0 <= i <= vertexCount && color == c
        invariant forall j :: 0 <= j < i ==> vertices[j] == old(vertices[j]).(color := c)
        invariant forall j :: i <= j < vertexCount ==> vertices[j] == old(vertices[j])
      {
        vertices[i] := vertices[i].(color := c);
        i := i + 1;
      }
    }

    /** `setVertexCount`: the array is resized to the new count and every vertex recomputed. */
    method SetVertexCount(count: u32)
      requires Valid() && count != 1
      modifies this
      ensures Valid() && fresh(vertices)
      ensures vertexCount == count
      ensures startPosition == old(startPosition) && endPosition == old(endPosition)
      ensures controlPosition == old(controlPosition) && color == old(color)
      ensures thickness == old(thickness) && isThick == old(isThick)
      ensures vertices[..] == Strip()
    {
      vertexCount := count;
      vertices := new Vertex[count](_ => Vertex(Vec2(0.0, 0.0), WHITE));
      UpdateVertices();
    }

    /** `setPoints`: new start, end and control points; the strip is recomputed with the same count. */
    method SetPoints(start: Vec2, end: Vec2, control: Vec2)
      requires Valid()
      modifies this`startPosition, this`endPosition, this`controlPosition, vertices
      ensures Valid()
      ensures startPosition == start && endPosition == end && controlPosition == control
      ensures vertices[..] == Strip()
    {
      startPosition := start;
      endPosition := end;
      controlPosition := control;
      UpdateVertices();
    }

    /** `setThickness`: the value as given, and the flag set exactly when it exceeds the threshold. */
    method SetThickness(t: real)
      modifies this`thickness, this`isThick
      ensures thickness == t
      ensures isThick == Some(t > THICK_THRESHOLD)
    {
      thickness := t;
      if thickness > THICK_THRESHOLD {
        isThick := Some(true);
      } else {
        isThick := Some(false);
      }
    }
  }
}
