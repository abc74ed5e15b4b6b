/** The vector field, its parameters and the Euler step that moves one point (src/math.rs).
    Coordinates are `real`s standing in for `f64`; the transcendental primitives come in
    through `FloatOps`, so only the structure of each formula is modelled, not its values. */
module Math {

  /** A point or vector of three coordinates (cgmath `Point3<f64>` / `Vector3<f64>`). */
  datatype Point = Point(x: real, y: real, z: real)

  const Origin: Point := Point(0.0, 0.0, 0.0)

  /** The floating-point primitives the programme takes from `std` and `cgmath`:
      the constant pi, `sin`, `cos`, the value of `a / 0.0` (a non-finite number in
      IEEE 754, here whatever value this field gives), and the perspective view transform
      `look_at(eye, (0, 0, 1), up) * p` of render.rs. */
  datatype FloatOps = FloatOps(
    pi: real,
    sin: real -> real,
    cos: real -> real,
    divByZero: real -> real,
    lookAt: (Point, Point) -> Point)

  /** Floating-point division: the real quotient when the divisor is not zero. */
  function Quot(ops: FloatOps, a: real, b: real): real
  {
    if b == 0.0 then ops.divByZero(a) else a / b
  }

  /** One vector-field instance: three axis selectors into the coordinate shuffle
      `[x, y, z]` and seven coefficients. */
  datatype VFParams = VFParams(
    a1: nat, a2: nat, a3: nat,
    p: real, q: real, r: real, s: real, v: real, w: real, u: real)

  /** The number of coordinates in `shuffle`. */
  const ShuffleLength: nat := 3

  /** The axis selectors are indices into the three-element `shuffle`. */
  predicate AxesValid(params: VFParams)
  {
    params.a1 < ShuffleLength && params.a2 < ShuffleLength && params.a3 < ShuffleLength
  }

  // ---------------------------------------------------------------------------
  // gen_rand

  /** A draw of `rng.gen::<f64>()`, which lies in the half-open unit interval. */
  type UnitDraw = u: real | 0.0 <= u < 1.0 witness 0.0

  /** The ten samples `gen_rand` takes from the thread's generator, in the order it takes
      them: three raw integers for the axis selectors and seven unit draws for the
      coefficients. */
  datatype Draws = Draws(
    a1: nat, a2: nat, a3: nat,
    p: UnitDraw, q: UnitDraw, r: UnitDraw, s: UnitDraw, v: UnitDraw, w: UnitDraw, u: UnitDraw)

  /** `Range::new(low, high).ind_sample` over integers: the raw draw reduced into the span. */
  function SampleIndex(low: nat, high: nat, raw: nat): (k: nat)
    requires low < high
    ensures low <= k < high
  {
    low + raw % (high - low)
  }

  /** A unit draw scaled by a positive span stays inside the span. */
  lemma ScaleBelowSpan(span: real, unit: UnitDraw)
    requires span > 0.0
    ensures 0.0 <= span * unit < span
  {
  }

  /** The offset of a float sample from the bottom of its range. */
  function Scale(span: real, unit: UnitDraw): (d: real)
    requires span > 0.0
    ensures 0.0 <= d < span
  {
    ScaleBelowSpan(span, unit);
    span * unit
  }

  /** `Range::new(low, high).ind_sample` over floats: the unit draw scaled into the span. */
  function SampleReal(low: real, high: real, unit: UnitDraw): (x: real)
    requires low < high
    ensures low <= x < high
  {
    low + Scale(high - low, unit)
  }

  /** `dimension_range` of gen_rand: the half-open `[0, 2)`. */
  const AxisLow: nat := 0
  const AxisHigh: nat := 2

  /** `param_range` of gen_rand: the half-open `[-1.0, 1.0)`. */
  const CoeffLow: real := -1.0
  const CoeffHigh: real := 1.0

  predicate InCoeffRange(c: real)
  {
    CoeffLow <= c < CoeffHigh
  }

  /** The parameter sets `gen_rand` can produce. */
  predicate InGenRange(params: VFParams)
  {
    && params.a1 < AxisHigh && params.a2 < AxisHigh && params.a3 < AxisHigh
    && InCoeffRange(params.p) && InCoeffRange(params.q) && InCoeffRange(params.r)
    && InCoeffRange(params.s) && InCoeffRange(params.v) && InCoeffRange(params.w)
    && InCoeffRange(params.u)
  }

  /** `VFParams::gen_rand`, with the generator's samples given as `d`. Every selector is 0 or
      1, so every one is a valid index into `shuffle`. */
  function GenRand(d: Draws): (params: VFParams)
    ensures params.a1 in {0, 1} && params.a2 in {0, 1} && params.a3 in {0, 1}
    ensures InGenRange(params)
    ensures AxesValid(params)
  {
    VFParams(
      SampleIndex(AxisLow, AxisHigh, d.a1),
      SampleIndex(AxisLow, AxisHigh, d.a2),
      SampleIndex(AxisLow, AxisHigh, d.a3),
      SampleReal(CoeffLow, CoeffHigh, d.p),
      SampleReal(CoeffLow, CoeffHigh, d.q),
      SampleReal(CoeffLow, CoeffHigh, d.r),
      SampleReal(CoeffLow, CoeffHigh, d.s),
      SampleReal(CoeffLow, CoeffHigh, d.v),
      SampleReal(CoeffLow, CoeffHigh, d.w),
      SampleReal(CoeffLow, CoeffHigh, d.u))
  }

  /** The unit draw that samples to a given coefficient. */
  function UnitFor(c: real): (u: UnitDraw)
    requires InCoeffRange(c)
  {
    (c - CoeffLow) / (CoeffHigh - CoeffLow)
  }

  /** The draws that make `gen_rand` produce a given parameter set. */
  function DrawsFor(params: VFParams): Draws
    requires InGenRange(params)
  {
    Draws(params.a1, params.a2, params.a3,
          UnitFor(params.p), UnitFor(params.q), UnitFor(params.r), UnitFor(params.s),
          UnitFor(params.v), UnitFor(params.w), UnitFor(params.u))
  }

  /** Every parameter set in the generator's range is produced by some draws, so together
      with GenRand's postcondition, InGenRange is exactly the set of possible results. */
  lemma GenRandCoversRange(params: VFParams)
    requires InGenRange(params)
    ensures GenRand(DrawsFor(params)) == params
  {
  }

  // ---------------------------------------------------------------------------
  // vector_field and mutate_point

  /** `vector_field`: the three components of the field at `pt`. The selectors pick
      coordinates out of the list `[x, y, z]`; AxesValid makes each of those indexings well
      defined. Each component is a function of the coordinates and coefficients it is given. */
  function VectorField(ops: FloatOps, pt: Point, params: VFParams): Point
    requires AxesValid(params)
  {
    var shuffle := [pt.x, pt.y, pt.z];
    Point(
      FieldI(ops, shuffle[params.a1], shuffle[params.a2], shuffle[params.a3], pt.z, params.p, params.q),
      FieldJ(ops, shuffle[params.a2], pt.x, params.r, params.s),
      FieldK(ops, shuffle[params.a1], shuffle[params.a2], shuffle[params.a3], params.v, params.w))
  }

  /** The first component: `q * cos(s3 / (s2 + p * (s1 + q) * pi + z) * pi)`. */
  function FieldI(ops: FloatOps, s1: real, s2: real, s3: real, z: real, p: real, q: real): real
  {
    q * ops.cos(Quot(ops, s3, s2 + p * (s1 + q) * ops.pi + z) * ops.pi)
  }

  /** The second component: `r * sin(s2 * cos(pi * x) / (s2 + r * -(x + s)) * pi + x)`. */
  function FieldJ(ops: FloatOps, s2: real, x: real, r: real, s: real): real
  {
    r * ops.sin(Quot(ops, s2 * ops.cos(ops.pi * x), s2 + r * -(x + s)) * ops.pi + x)
  }

  /** The third component: `w * sin(s1 / (s2 + v / (s3 - s2 + w)) * pi + s1)`. */
  function FieldK(ops: FloatOps, s1: real, s2: real, s3: real, v: real, w: real): real
  {
    w * ops.sin(Quot(ops, s1, s2 + Quot(ops, v, s3 - s2 + w)) * ops.pi + s1)
  }

  /** The coefficient `u` is drawn but never read: two parameter sets that differ only in
      `u` define the same field. */
  lemma VectorFieldIgnoresU(ops: FloatOps, pt: Point, params: VFParams, u: real)
    requires AxesValid(params)
    ensures VectorField(ops, pt, params.(u := u)) == VectorField(ops, pt, params)
  {
  }

  /** The explicit Euler step `pt + dt * f` of `mutate_point`, for a field value `f`. */
  function EulerStep(dt: real, pt: Point, f: Point): Point
  {
    Point(pt.x + dt * f.x, pt.y + dt * f.y, pt.z + dt * f.z)
  }

  /** `mutate_point`: one Euler step along the field at `pt`. */
  function MutatePoint(ops: FloatOps, dt: real, pt: Point, params: VFParams): Point
    requires AxesValid(params)
  {
    EulerStep(dt, pt, VectorField(ops, pt, params))
  }

  /** The step is componentwise: each output coordinate is determined by the same input
      coordinate and the matching field component, and the displacement is `dt` times the
      field. */
  lemma EulerStepComponentwise(dt: real, a: Point, fa: Point, b: Point, fb: Point)
    ensures var ma, mb := EulerStep(dt, a, fa), EulerStep(dt, b, fb);
            && (a.x == b.x && fa.x == fb.x ==> ma.x == mb.x)
            && (a.y == b.y && fa.y == fb.y ==> ma.y == mb.y)
            && (a.z == b.z && fa.z == fb.z ==> ma.z == mb.z)
            && ma.x - a.x == dt * fa.x && ma.y - a.y == dt * fa.y && ma.z - a.z == dt * fa.z
  {
  }

  /** A step of size zero leaves the point where it is. */
  lemma MutatePointZeroStep(ops: FloatOps, pt: Point, params: VFParams)
    requires AxesValid(params)
    ensures MutatePoint(ops, 0.0, pt, params) == pt
  {
  }

  /** The `iter().map(mutate_point).collect()` of `App::update`: every point is stepped on
      its own, keeping the count and the order. */
  function Integrate(ops: FloatOps, dt: real, points: seq<Point>, params: VFParams): (next: seq<Point>)
    requires AxesValid(params)
    ensures |next| == |points|
    ensures forall i :: 0 <= i < |points| ==> next[i] == MutatePoint(ops, dt, points[i], params)
  {
    if points == [] then []
    else [MutatePoint(ops, dt, points[0], params)] + Integrate(ops, dt, points[1..], params)
  }

  /** Stepping a wavefront in two pieces is stepping it whole: no point sees its neighbours. */
  lemma IntegrateAppend(ops: FloatOps, dt: real, a: seq<Point>, b: seq<Point>, params: VFParams)
    requires AxesValid(params)
    ensures Integrate(ops, dt, a + b, params) == Integrate(ops, dt, a, params) + Integrate(ops, dt, b, params)
  {
  }

  /** With step size zero (speed paused) the wavefront does not move. */
  lemma IntegrateZeroStep(ops: FloatOps, points: seq<Point>, params: VFParams)
    requires AxesValid(params)
    ensures Integrate(ops, 0.0, points, params) == points
  {
  }
}
