/** The camera, the two projections and the choice of line segments per plot style
    (src/render.rs). Drawing itself (`GlGraphics`, `line`) is not modelled: `PlotPoints`
    returns the segments `plot_points` hands to `line_points`, in the order it hands them. */
module Rendering {
  import Math

  datatype CameraProjection = Orthographic | Perspective

  /** A point on the screen plane (cgmath `Point2<f64>`). */
  datatype Point2 = Point2(x: real, y: real)

  /** Orbit radius and angular rate of the perspective camera (`r` and `timemult`). */
  const OrbitRadius: real := 10.0
  const OrbitRate: real := 0.004
  /** The height the orbiting camera is held at. */
  const OrbitHeight: real := 0.5

  /** Where the perspective camera sits at simulation time `time`. */
  function OrbitPosition(ops: Math.FloatOps, time: real): (pos: Math.Point)
    ensures pos.y == OrbitHeight
  {
    Math.Point(OrbitRadius * ops.cos(OrbitRate * time), OrbitHeight, OrbitRadius * ops.sin(OrbitRate * time))
  }

  class Camera {
    var pos: Math.Point
    var dir: Math.Point
    var scale: real
    var proj: CameraProjection

    constructor (pos: Math.Point, dir: Math.Point, scale: real, proj: CameraProjection)
      ensures this.pos == pos && this.dir == dir && this.scale == scale && this.proj == proj
    {
      this.pos, this.dir, this.scale, this.proj := pos, dir, scale, proj;
    }

    /** `Camera::update`: in perspective mode the camera moves along its orbit; in
        orthographic mode nothing changes. Only `pos` is ever written. */
    method Update(ops: Math.FloatOps, time: real)
      modifies this`pos
      ensures proj == Orthographic ==> pos == old(pos)
      ensures proj == Perspective ==> pos == OrbitPosition(ops, time) && pos.y == OrbitHeight
      ensures dir == old(dir) && scale == old(scale) && proj == old(proj)
    {
      if proj == Perspective {
        pos := OrbitPosition(ops, time);
      }
    }
  }

  /** `to_camera_space`: orthographic projection keeps `(x, y)`; perspective projection
      applies the view transform looking from `pos` and keeps the transformed `(x, y)`. */
  function ToCameraSpace(ops: Math.FloatOps, proj: CameraProjection, pos: Math.Point, p: Math.Point): (c: Point2)
    ensures proj == Orthographic ==> c.x == p.x && c.y == p.y
  {
    match proj
    case Orthographic => Point2(p.x, p.y)
    case Perspective =>
      var view := ops.lookAt(pos, p);
      Point2(view.x, view.y)
  }

  /** Orthographic projection discards depth: points that differ only in `z` coincide,
      wherever the camera is. */
  lemma OrthographicIgnoresDepth(ops: Math.FloatOps, pos: Math.Point, pos': Math.Point, p: Math.Point, z: real)
    ensures ToCameraSpace(ops, Orthographic, pos, p.(z := z)) == ToCameraSpace(ops, Orthographic, pos', p)
  {
  }

  /** The screen position `line_points` computes for a point: the viewport centre (half the
      integer width and height, rounded down as `u32` division does) plus the projected
      point times the camera scale. */
  function ToScreen(ops: Math.FloatOps, proj: CameraProjection, pos: Math.Point, scale: real,
                    width: nat, height: nat, p: Math.Point): (s: Point2)
  {
    var c := ToCameraSpace(ops, proj, pos, p);
    Point2((width / 2) as real + c.x * scale, (height / 2) as real + c.y * scale)
  }

  /** In orthographic mode the world origin, where every radial segment ends, is drawn at
      the viewport centre, whatever the scale. */
  lemma OrthographicOriginAtCentre(ops: Math.FloatOps, pos: Math.Point, scale: real, width: nat, height: nat)
    ensures ToScreen(ops, Orthographic, pos, scale, width, height, Math.Origin)
         == Point2((width / 2) as real, (height / 2) as real)
  {
  }

  // ---------------------------------------------------------------------------
  // plot_points

  datatype PlotStyle = Point | Line | Radial

  /** One call of `line_points`: the index of the wavefront point it belongs to, the
      colour fraction given to `gen_color`, and the two endpoints in world space. */
  datatype Segment = Segment(index: nat, hue: real, p1: Math.Point, p2: Math.Point)

  /** The colour fraction `i / len` of point `i`; it lies in `[0, 1)`. */
  function ColorFraction(i: nat, len: nat): (f: real)
    requires i < len
    ensures 0.0 <= f < 1.0
  {
    i as real / len as real
  }

  /** What `plot_points` needs of its two buffers: in Point style it reads
      `wavefront_prev[i]` for every index of `wavefront`. */
  predicate CanPlot(style: PlotStyle, wavefront: seq<Math.Point>, wavefrontPrev: seq<Math.Point>)
  {
    style == Point ==> |wavefrontPrev| >= |wavefront|
  }

  /** The segments the loop body of `plot_points` draws for index `i`. */
  function SegmentsAt(style: PlotStyle, wavefront: seq<Math.Point>, wavefrontPrev: seq<Math.Point>, i: nat): seq<Segment>
    requires i < |wavefront| && CanPlot(style, wavefront, wavefrontPrev)
  {
    var hue := ColorFraction(i, |wavefront|);
    match style
    case Point => [Segment(i, hue, wavefront[i], wavefrontPrev[i])]
    case Line => if i > 0 then [Segment(i, hue, wavefront[i], wavefront[i - 1])] else []
    case Radial => [Segment(i, hue, wavefront[i], Math.Origin)]
  }

  /** The segments drawn for the first `m` points, in drawing order. */
  function SegmentsUpTo(style: PlotStyle, wavefront: seq<Math.Point>, wavefrontPrev: seq<Math.Point>, m: nat): seq<Segment>
    requires m <= |wavefront| && CanPlot(style, wavefront, wavefrontPrev)
  {
    if m == 0 then [] else SegmentsUpTo(style, wavefront, wavefrontPrev, m - 1) + SegmentsAt(style, wavefront, wavefrontPrev, m - 1)
  }

  /** All segments of one frame. */
  function Segments(style: PlotStyle, wavefront: seq<Math.Point>, wavefrontPrev: seq<Math.Point>): seq<Segment>
    requires CanPlot(style, wavefront, wavefrontPrev)
  {
    SegmentsUpTo(style, wavefront, wavefrontPrev, |wavefront|)
  }

  /** `plot_points`: one pass over the wavefront in index order, collecting the segments
      each index contributes. */
  method PlotPoints(style: PlotStyle, wavefront: seq<Math.Point>, wavefrontPrev: seq<Math.Point>) returns (segments: seq<Segment>)
    requires CanPlot(style, wavefront, wavefrontPrev)
    ensures segments == Segments(style, wavefront, wavefrontPrev)
  {
    segments := [];
    var i := 0;
    while i < |wavefront|
      invariant 0 <= i <= |wavefront|
      invariant segments == SegmentsUpTo(style, wavefront, wavefrontPrev, i)
    {
      match style {
        case Point =>
          segments := segments + [Segment(i, ColorFraction(i, |wavefront|), wavefront[i], wavefrontPrev[i])];
        case Line =>
          if i > 0 {
            segments := segments + [Segment(i, ColorFraction(i, |wavefront|), wavefront[i], wavefront[i - 1])];
          }
        case Radial =>
          segments := segments + [Segment(i, ColorFraction(i, |wavefront|), wavefront[i], Math.Origin)];
      }
      i := i + 1;
    }
  }

  /** Point style: one segment per point, from `wavefront[i]` back to `wavefrontPrev[i]`. */
  lemma {:induction false} PointStyleSegments(wavefront: seq<Math.Point>, wavefrontPrev: seq<Math.Point>, m: nat)
    requires m <= |wavefront| <= |wavefrontPrev|
    ensures var segs := SegmentsUpTo(Point, wavefront, wavefrontPrev, m);
            && |segs| == m
            && forall i :: 0 <= i < m ==>
                 segs[i] == Segment(i, ColorFraction(i, |wavefront|), wavefront[i], wavefrontPrev[i])
  {
    if m > 0 {
      PointStyleSegments(wavefront, wavefrontPrev, m - 1);
    }
  }

  /** Line style: `n - 1` segments for `n >= 1` points (none for an empty wavefront), the
      `k`-th joining point `k + 1` to its predecessor `k`; index 0 draws nothing. */
  lemma {:induction false} LineStyleSegments(wavefront: seq<Math.Point>, wavefrontPrev: seq<Math.Point>, m: nat)
    requires m <= |wavefront|
    ensures var segs := SegmentsUpTo(Line, wavefront, wavefrontPrev, m);
            && |segs| == (if m == 0 then 0 else m - 1)
            && forall k :: 0 <= k < |segs| ==>
                 segs[k] == Segment(k + 1, ColorFraction(k + 1, |wavefront|), wavefront[k + 1], wavefront[k])
  {
    if m > 0 {
      LineStyleSegments(wavefront, wavefrontPrev, m - 1);
    }
  }

  /** Radial style: one segment per point, from `wavefront[i]` to the world origin. */
  lemma {:induction false} RadialStyleSegments(wavefront: seq<Math.Point>, wavefrontPrev: seq<Math.Point>, m: nat)
    requires m <= |wavefront|
    ensures var segs := SegmentsUpTo(Radial, wavefront, wavefrontPrev, m);
            && |segs| == m
            && forall i :: 0 <= i < m ==>
                 segs[i] == Segment(i, ColorFraction(i, |wavefront|), wavefront[i], Math.Origin)
  {
    if m > 0 {
      RadialStyleSegments(wavefront, wavefrontPrev, m - 1);
    }
  }

  /** Whatever the style, every segment starts at the point whose index it carries, and
      its colour fraction lies in `[0, 1)`. */
  lemma {:induction false} SegmentsWellFormed(style: PlotStyle, wavefront: seq<Math.Point>, wavefrontPrev: seq<Math.Point>, m: nat)
    requires m <= |wavefront| && CanPlot(style, wavefront, wavefrontPrev)
    ensures forall seg :: seg in SegmentsUpTo(style, wavefront, wavefrontPrev, m) ==>
              seg.index < m && seg.p1 == wavefront[seg.index] && 0.0 <= seg.hue < 1.0
  {
    if m > 0 {
      SegmentsWellFormed(style, wavefront, wavefrontPrev, m - 1);
    }
  }
}
