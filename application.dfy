/** The running programme of src/main.rs: the wavefront seeding, the `App` and `Simulation`
    state with its update and render steps, and the key handlers of `main`. `main` keeps the
    two history stacks and the pause buffer in local variables; here they are fields of the
    one `Session` object, next to the state they act on. */
module Application {
  import Math
  import Rendering
  import Commands

  // ---------------------------------------------------------------------------
  // generate_init_points

  /** Point `i` (counting from 1) of the initial ring of `n`-point half turns: angle
      `offset + (i / n) * pi` in the xy-plane at radius `r`, height rising linearly as
      `2 * i / n * r - r`. */
  function SeedPoint(ops: Math.FloatOps, offset: real, r: real, n: nat, i: nat): Math.Point
    requires n > 0
  {
    var theta := offset + (i as real / n as real) * ops.pi;
    Math.Point(r * ops.cos(theta), r * ops.sin(theta), 2.0 * i as real / n as real * r - r)
  }

  /** `points` is the layout `generate_init_points(offset, r, n)` produces: the loop
      `for i in 1..n * 2` gives `2n - 1` points for `n >= 1` (none for `n = 0`), element `k`
      being seed point `k + 1`. */
  predicate IsSeeding(ops: Math.FloatOps, offset: real, r: real, n: nat, points: seq<Math.Point>)
  {
    && |points| == (if n == 0 then 0 else 2 * n - 1)
    && forall k :: 0 <= k < |points| ==> n > 0 && points[k] == SeedPoint(ops, offset, r, n, k + 1)
  }

  /** `generate_init_points`: push one seed point per `i` in `1..n * 2`. */
  method GenerateInitPoints(ops: Math.FloatOps, offset: real, r: real, n: nat) returns (points: seq<Math.Point>)
    ensures |points| == if n == 0 then 0 else 2 * n - 1
    ensures IsSeeding(ops, offset, r, n, points)
  {
    points := [];
    var i := 1;
    while i < n * 2
      invariant 1 <= i <= if n == 0 then 1 else 2 * n
      invariant |points| == i - 1
      invariant forall k :: 0 <= k < |points| ==> n > 0 && points[k] == SeedPoint(ops, offset, r, n, k + 1)
    {
      points := points + [SeedPoint(ops, offset, r, n, i)];
      i := i + 1;
    }
  }

  /** The step size of `App::update`: the speed times the frame's `dt`, modulated by
      `sin(time / time_max)` at the already advanced time. */
  function StepSize(ops: Math.FloatOps, speed: real, frameDt: real, time: real, timeMax: real): (dt: real)
    requires timeMax != 0.0
    ensures speed == 0.0 ==> dt == 0.0
  {
    speed * frameDt * ops.sin(time / timeMax)
  }

  /** The initial camera of `App::new`. */
  const InitialCameraPos: Math.Point := Math.Point(0.0, 0.0, -10.0)
  const InitialCameraDir: Math.Point := Math.Point(0.0, 0.0, 1.0)
  const InitialCameraScale: real := 50.0

  class Session {
    /** The floating-point primitives the simulation uses. */
    const ops: Math.FloatOps

    // Simulation
    var params: Math.VFParams
    var time: real
    const timeMax: real := 100.0
    var simSpeed: real
    var wavefront: seq<Math.Point>
    var wavefrontPrev: seq<Math.Point>
    const pointOffset: real := 0.0
    const pointRadius: real := 1.0
    const pointCount: nat := 100

    // App
    var plotStyle: Rendering.PlotStyle
    const camera: Rendering.Camera
    const drawWidth: real := 1.0
    const simSpeedMod: real := Commands.SimSpeedStep

    // The locals of main
    var paramsNextStack: seq<Math.VFParams>
    var paramsPrevStack: seq<Math.VFParams>
    var simSpeedBuffer: real

    /** What every command keeps: every parameter set held came from `gen_rand` (so its axis
        selectors index `shuffle`), both buffers hold one point per seed position, the clock
        is not negative, and the pause buffer holds a moving speed. */
    ghost predicate Valid()
      reads this
    {
      && Math.InGenRange(params)
      && (forall q :: q in paramsPrevStack ==> Math.InGenRange(q))
      && (forall q :: q in paramsNextStack ==> Math.InGenRange(q))
      && |wavefront| == 2 * pointCount - 1
      && |wavefrontPrev| == |wavefront|
      && time >= 0.0
      && Commands.Moving(simSpeedBuffer)
    }

    /** The parameter history: the active set and the two stacks of `main`. */
    function History(): Commands.History
      reads this
    {
      Commands.History(params, paramsPrevStack, paramsNextStack)
    }

    /** The speed and the pause buffer. */
    function Speed(): Commands.SpeedState
      reads this
    {
      Commands.SpeedState(simSpeed, simSpeedBuffer)
    }

    /** Both buffers hold the freshly seeded layout. */
    ghost predicate Reseeded()
      reads this
    {
      wavefront == wavefrontPrev && IsSeeding(ops, pointOffset, pointRadius, pointCount, wavefront)
    }

    /** `App::new` with a first `gen_rand` drawn from `draws`, followed by the set-up of the
        stacks and the pause buffer in `main`. */
    constructor (ops: Math.FloatOps, draws: Math.Draws)
      ensures Valid() && fresh(camera)
      ensures this.ops == ops
      ensures History() == Commands.History(Math.GenRand(draws), [], [])
      ensures Speed() == Commands.SpeedState(Commands.DefaultSimSpeed, Commands.DefaultSimSpeed)
      ensures time == 0.0 && Reseeded()
      ensures plotStyle == Rendering.PlotStyle.Point
      ensures camera.pos == InitialCameraPos && camera.dir == InitialCameraDir
      ensures camera.scale == InitialCameraScale && camera.proj == Rendering.Orthographic
    {
      this.ops := ops;
      params := Math.GenRand(draws);
      time := 0.0;
      simSpeed := Commands.DefaultSimSpeed;
      wavefront, wavefrontPrev := [], [];
      plotStyle := Rendering.PlotStyle.Point;
      camera := new Rendering.Camera(InitialCameraPos, InitialCameraDir, InitialCameraScale, Rendering.Orthographic);
      paramsNextStack, paramsPrevStack := [], [];
      simSpeedBuffer := Commands.DefaultSimSpeed;
      new;
      ResetWavefront();
    }

    /** `App::reset_wavefront`: seed both buffers with the same fresh layout. */
    method ResetWavefront()
      modifies this`wavefront, this`wavefrontPrev
      ensures Reseeded()
      ensures |wavefront| == |wavefrontPrev| == 2 * pointCount - 1
    {
      var initPoints := GenerateInitPoints(ops, pointOffset, pointRadius, pointCount);
      wavefront := initPoints;
      wavefrontPrev := initPoints;
    }

    /** `App::reset_time`. */
    method ResetTime()
      modifies this`time
      ensures time == 0.0
    {
      time := 0.0;
    }

    /** The state-changing part of `App::render`: the segments of the frame are taken from
        the current and the previous buffer, then the current buffer is copied into the
        previous one. */
    method Render() returns (segments: seq<Rendering.Segment>)
      requires Valid()
      modifies this`wavefrontPrev
      ensures Valid()
      ensures segments == Rendering.Segments(plotStyle, wavefront, old(wavefrontPrev))
      ensures wavefrontPrev == wavefront && wavefront == old(wavefront)
    {
      segments := Rendering.PlotPoints(plotStyle, wavefront, wavefrontPrev);
      wavefrontPrev := wavefront;
    }

    /** `App::update`: advance the clock by one, move the camera, and step every point by
        the modulated step size. */
    method Update(frameDt: real)
      requires Valid()
      modifies this`time, this`wavefront, camera`pos
      ensures Valid()
      ensures time == old(time) + 1.0
      ensures wavefront == Math.Integrate(ops, StepSize(ops, simSpeed, frameDt, time, timeMax), old(wavefront), params)
      ensures simSpeed == 0.0 ==> wavefront == old(wavefront)
      ensures camera.proj == Rendering.Perspective ==> camera.pos == Rendering.OrbitPosition(ops, time)
      ensures camera.proj == Rendering.Orthographic ==> camera.pos == old(camera.pos)
    {
      time := time + 1.0;
      var dt := StepSize(ops, simSpeed, frameDt, time, timeMax);
      camera.Update(ops, time);
      if simSpeed == 0.0 {
        Math.IntegrateZeroStep(ops, wavefront, params);
      }
      wavefront := Math.Integrate(ops, dt, wavefront, params);
    }

    /** Keys P, L and R: choose the plot style. */
    method SetPlotStyle(style: Rendering.PlotStyle)
      requires Valid()
      modifies this`plotStyle
      ensures Valid()
      ensures plotStyle == style
    {
      plotStyle := style;
    }

    /** Key::Up. */
    method SpeedUp()
      requires Valid()
      modifies this`simSpeed
      ensures Valid()
      ensures simSpeed == old(simSpeed) + simSpeedMod
    {
      simSpeed := simSpeed + simSpeedMod;
    }

    /** Key::Down. */
    method SlowDown()
      requires Valid()
      modifies this`simSpeed
      ensures Valid()
      ensures simSpeed == old(simSpeed) - simSpeedMod
    {
      simSpeed := simSpeed - simSpeedMod;
    }

    /** Key::LCtrl: zero the clock and reseed the wavefront. */
    method Reset()
      requires Valid()
      modifies this`time, this`wavefront, this`wavefrontPrev
      ensures Valid()
      ensures time == 0.0 && Reseeded()
    {
      ResetTime();
      ResetWavefront();
    }

    /** Key::Space: pause or resume. */
    method TogglePause()
      requires Valid()
      modifies this`simSpeed, this`simSpeedBuffer
      ensures Valid()
      ensures Speed() == Commands.TogglePause(old(Speed()))
    {
      Commands.TogglePauseKeepsBufferMoving(Speed());
      if Commands.Abs(simSpeed) > Commands.PauseThreshold {
        simSpeedBuffer := simSpeed;
        simSpeed := 0.0;
      } else {
        simSpeed := if Commands.Abs(simSpeedBuffer) > Commands.PauseThreshold then simSpeedBuffer else Commands.DefaultSimSpeed;
      }
    }

    /** Key::Tab: switch between orthographic and perspective projection. */
    method ToggleProjection()
      modifies camera`proj
      ensures camera.proj == Commands.ToggleProjection(old(camera.proj))
    {
      camera.proj := match camera.proj
        case Orthographic => Rendering.Perspective
        case Perspective => Rendering.Orthographic;
    }

    /** Key::Left: go back to the previous parameter set, restarting the clock and the
        wavefront; with no previous set, nothing happens. */
    method HistoryBack()
      requires Valid()
      modifies this`params, this`paramsPrevStack, this`paramsNextStack, this`time, this`wavefront, this`wavefrontPrev
      ensures Valid()
      ensures History() == Commands.Back(old(History()))
      ensures old(paramsPrevStack) == [] ==>
                time == old(time) && wavefront == old(wavefront) && wavefrontPrev == old(wavefrontPrev)
      ensures old(paramsPrevStack) != [] ==> time == 0.0 && Reseeded()
    {
      if paramsPrevStack != [] {
        var prevParams := paramsPrevStack[|paramsPrevStack| - 1];
        paramsPrevStack := paramsPrevStack[..|paramsPrevStack| - 1];
        paramsNextStack := paramsNextStack + [params];
        params := prevParams;
        ResetTime();
        ResetWavefront();
      }
    }

    /** Key::Right: go on to the next parameter set, or to a freshly generated one (drawn
        from `draws`) when there is none, restarting the clock and the wavefront. */
    method HistoryForward(draws: Math.Draws)
      requires Valid()
      modifies this`params, this`paramsPrevStack, this`paramsNextStack, this`time, this`wavefront, this`wavefrontPrev
      ensures Valid()
      ensures History() == Commands.Forward(old(History()), Math.GenRand(draws))
      ensures time == 0.0 && Reseeded()
    {
      paramsPrevStack := paramsPrevStack + [params];
      if paramsNextStack != [] {
        params := paramsNextStack[|paramsNextStack| - 1];
        paramsNextStack := paramsNextStack[..|paramsNextStack| - 1];
      } else {
        params := Math.GenRand(draws);
      }
      ResetTime();
      ResetWavefront();
    }

    /** The key-press match of `main`: each key runs its command; any other key does
        nothing. `draws` is what `gen_rand` would draw if Right has to generate. */
    method Press(key: Commands.Key, draws: Math.Draws)
      requires Valid()
      modifies this, camera
      ensures Valid()
      ensures key.P? || key.L? || key.R? ==>
                && plotStyle == (if key.P? then Rendering.PlotStyle.Point else if key.L? then Rendering.Line else Rendering.Radial)
                && History() == old(History()) && Speed() == old(Speed()) && time == old(time)
                && wavefront == old(wavefront) && wavefrontPrev == old(wavefrontPrev)
                && unchanged(camera)
      ensures key.Up? ==> simSpeed == old(simSpeed) + simSpeedMod
      ensures key.Down? ==> simSpeed == old(simSpeed) - simSpeedMod
      ensures key.LCtrl? ==>
                && time == 0.0 && Reseeded() && History() == old(History())
                && Speed() == old(Speed()) && plotStyle == old(plotStyle) && unchanged(camera)
      ensures key.Space? ==> Speed() == Commands.TogglePause(old(Speed()))
      ensures key.Tab? ==>
                && camera.proj == Commands.ToggleProjection(old(camera.proj)) && unchanged(this)
                && camera.pos == old(camera.pos) && camera.dir == old(camera.dir) && camera.scale == old(camera.scale)
      ensures key.Left? ==> History() == Commands.Back(old(History()))
      ensures key.Right? ==> History() == Commands.Forward(old(History()), Math.GenRand(draws))
      ensures key.Other? ==> unchanged(this) && unchanged(camera)
    {
      match key
      case P => SetPlotStyle(Rendering.PlotStyle.Point);
      case L => SetPlotStyle(Rendering.Line);
      case R => SetPlotStyle(Rendering.Radial);
      case Down => SlowDown();
      case Up => SpeedUp();
      case LCtrl => Reset();
      case Space => TogglePause();
      case Tab => ToggleProjection();
      case Left => HistoryBack();
      case Right => HistoryForward(draws);
      case Other =>
    }
  }
}
