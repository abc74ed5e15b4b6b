# chaotic-animations, modelled in Dafny

The program animates a cloud of points, the *wavefront*, under a chaotic vector field.
An operator can page back and forth through randomly generated field parameters, pause and
resume the simulation, switch between orthographic and perspective views, and choose how the
points are drawn. Almost all of its arithmetic is floating-point trigonometry. This project
models the discrete, stateful logic around that arithmetic and proves its laws:

- `math.dfy` (module `Math`, src/math.rs): `VFParams`; `gen_rand`, with the generator's
  samples passed in as `Draws`; the vector field's use of the coordinate shuffle, stated over
  injected `sin`/`cos`/`pi`; and the Euler step `mutate_point` together with the per-point map
  of `App::update`.
- `rendering.dfy` (module `Rendering`, src/render.rs): the `Camera` class and its
  `update`; the two projections; the viewport placement of `line_points`; and the choice of
  segments that `plot_points` makes for each `PlotStyle`. `PlotPoints` is a loop proved
  against the recursive definition `SegmentsUpTo`, and the properties of each style are
  lemmas about that definition.
- `commands.dfy` (module `Commands`, src/main.rs): the key handlers as transitions on
  values. Left and Right act on a `History` (the active set plus the two `Vec` stacks).
  Space acts on a `SpeedState` (the speed plus `sim_speed_buffer`). Tab toggles the
  projection. Reading the history as a timeline (previous stack, active set, reversed next
  stack) with a cursor gives the undo/redo meaning. Left and a popping Right move the cursor
  along a fixed timeline. A generating Right extends the timeline and moves to its new end.
- `application.dfy` (module `Application`, src/main.rs): `generate_init_points` as a
  loop, and the `Session` class. `Session` holds the fields of `App` and `Simulation` plus
  the history stacks and the pause buffer, which `main` keeps as local variables. It has one
  method per command, and each method's postcondition ties the new state to the functions of
  `Commands`. `Session.Valid()` is the invariant every command keeps:
  - every held parameter set is in `gen_rand`'s range;
  - both buffers have `2 * point_count - 1` points;
  - the clock is not negative;
  - the pause buffer holds a moving speed.

Floating-point numbers are modelled as `real`. The primitives the model cannot compute are
fields of `Math.FloatOps`: `pi`, `sin`, `cos`, the value of a division by zero, and the
`look_at` view transform.

Notes on the source as modelled:

- The axis selectors come from `Range::new(0, 2)`, which is half-open, so they are 0 or 1.
  Revisions of the program that draw from {0, 1, 2} are not the code modelled here.
- The coefficients come from the half-open `[-1.0, 1.0)`.
- Seeding uses the linear height ramp `2 * i / n * r - r`, as src/main.rs does.
- The perspective view looks from the camera position towards `(0, 0, 1)`, not towards the
  origin.
- `render` draws from the old previous buffer first and only then copies the current buffer
  into it. `Session.Render` states it in that order.
- The pause buffer starts at `DEFAULT_SIM_SPEED` and only ever receives a moving speed.
  So the `DEFAULT_SIM_SPEED` fallback of a resume is never taken
  (`Commands.TogglePauseKeepsBufferMoving`, kept as part of `Session.Valid()`).
- A parameter set can be active and also sit on a stack, because `gen_rand` may repeat a
  set. What navigation does guarantee is that no held set is lost or duplicated
  (`BackConservesSets`, `ForwardConservesSets`).

## Model

| member | source | states |
|---|---|---|
| `Math.SampleIndex` | src/math.rs:26-31 | an integer sample of `Range::new(low, high)` lies in the half-open `[low, high)` |
| `Math.SampleReal` | src/math.rs:27-38 | a float sample of `Range::new(low, high)` lies in the half-open `[low, high)` |
| `Math.GenRand` | src/math.rs:24-40 | every axis selector is 0 or 1, so it is a valid index into the three-element shuffle; every coefficient `p, q, r, s, v, w, u` lies in `[-1.0, 1.0)` |
| `Math.GenRandCoversRange` | src/math.rs:24-40 | every parameter set in that range is produced by some draws, so the range is exactly the set of results |
| `Math.VectorField` | src/math.rs:63-87 | the definition of `vector_field`: the selectors index the list `[x, y, z]`, and the three components are `FieldI`, `FieldJ` and `FieldK` of the selected coordinates; its law is `VectorFieldIgnoresU` |
| `Math.FieldI` | src/math.rs:68-72 | the definition of the first component, `q * cos(s3 / (s2 + p * (s1 + q) * pi + z) * pi)`, division by zero going through `FloatOps` |
| `Math.FieldJ` | src/math.rs:73-77 | the definition of the second component, `r * sin(s2 * cos(pi * x) / (s2 + r * -(x + s)) * pi + x)` |
| `Math.FieldK` | src/math.rs:78-83 | the definition of the third component, `w * sin(s1 / (s2 + v / (s3 - s2 + w)) * pi + s1)` |
| `Math.VectorFieldIgnoresU` | src/math.rs:63-87 | the field reads the selectors and `p, q, r, s, v, w` but not `u`: parameter sets differing only in `u` give the same field (every `shuffle[aK]` index is checked in bounds in `VectorField`) |
| `Math.EulerStep` | src/math.rs:58-61 | the definition of the explicit Euler step `p + dt * f`; its law is `EulerStepComponentwise` |
| `Math.MutatePoint` | src/math.rs:58-61 | the definition of `mutate_point`: one Euler step along the field at the point; its law is `MutatePointZeroStep` |
| `Math.EulerStepComponentwise` | src/math.rs:58-61 | the step moves each coordinate by `dt` times the matching field component, and each output coordinate depends only on the same input coordinate and field component |
| `Math.MutatePointZeroStep` | src/math.rs:58-61 | a step of size zero leaves the point unchanged |
| `Math.Integrate` | src/main.rs:184-188 | the new wavefront has the old length, and element `i` is the step applied to old element `i` |
| `Math.IntegrateAppend` | src/main.rs:184-188 | stepping the concatenation of two wavefronts is the concatenation of their steps, so points move independently |
| `Math.IntegrateZeroStep` | src/main.rs:179-188 | with step size zero the wavefront does not move |
| `Rendering.OrbitPosition` | src/render.rs:32-38 | the orbiting camera is always at height 0.5 |
| `Rendering.Camera.Update` | src/render.rs:27-40 | in orthographic mode the camera is unchanged; in perspective mode `pos` becomes the orbit position for `time`, with `pos.y = 0.5`; `dir`, `scale` and `proj` never change |
| `Rendering.ToCameraSpace` | src/render.rs:124-141 | orthographic projection returns `(x, y)` |
| `Rendering.OrthographicIgnoresDepth` | src/render.rs:127-130 | the orthographic projection depends on neither `z` nor the camera position |
| `Rendering.ToScreen` | src/render.rs:107-115 | the definition of the screen placement in `line_points`: half the integer viewport size plus the projected point times the camera scale; its law is `OrthographicOriginAtCentre` |
| `Rendering.OrthographicOriginAtCentre` | src/render.rs:107-115 | in orthographic mode the origin lands on the viewport centre: half the integer width and height, whatever the scale |
| `Rendering.ColorFraction` | src/render.rs:57-58 | the colour fraction `i / len` of an emitted segment lies in `[0, 1)` |
| `Rendering.SegmentsAt` | src/render.rs:57-88 | the definition of the loop body of `plot_points` for index `i`: one segment to `wavefront_prev[i]` (Point), to `wavefront[i - 1]` for `i > 0` (Line), or to the origin (Radial) |
| `Rendering.SegmentsUpTo` | src/render.rs:56-89 | the definition of the first `m` iterations of the loop, in index order; its laws are the three style lemmas and `SegmentsWellFormed` |
| `Rendering.PlotPoints` | src/render.rs:49-91 | the loop over the wavefront emits exactly the segments of `SegmentsUpTo` for the whole wavefront, in index order |
| `Rendering.PointStyleSegments` | src/render.rs:56-68 | Point style emits one segment per point, pairing `wavefront[i]` with `wavefront_prev[i]`, provided the previous buffer is at least as long |
| `Rendering.LineStyleSegments` | src/render.rs:69-79 | Line style emits `n - 1` segments for `n >= 1` points and none for `n = 0`; segment `k` joins point `k + 1` to point `k`, and index 0 emits nothing |
| `Rendering.RadialStyleSegments` | src/render.rs:80-88 | Radial style emits `n` segments, each from `wavefront[i]` to the origin |
| `Rendering.SegmentsWellFormed` | src/render.rs:57-88 | in every style, each segment starts at the wavefront point whose index it carries, and its colour fraction lies in `[0, 1)` |
| `Commands.Back` | src/main.rs:274-281 | the definition of Left: pop the previous stack into the active slot and push the active set onto the next stack, or do nothing when the previous stack is empty; its laws are the lemmas below |
| `Commands.Forward` | src/main.rs:282-291 | the definition of Right: push the active set onto the previous stack, then pop the next stack or, when it is empty, take the generated set |
| `Commands.BackAtStartIsNoOp` | src/main.rs:274-281 | Left with an empty previous stack leaves the active set and both stacks unchanged |
| `Commands.BackMovesCursor` | src/main.rs:274-281 | a successful Left keeps the timeline and moves the cursor back by one |
| `Commands.ForwardMovesCursor` | src/main.rs:282-291 | Right with a non-empty next stack keeps the timeline and moves the cursor forward by one |
| `Commands.ForwardGenerates` | src/main.rs:282-291 | Right with an empty next stack appends the generated set to the timeline and moves the cursor onto it |
| `Commands.ForwardThenBack` | src/main.rs:274-291 | Right then Left restores the active set and the previous stack; the next stack is restored when it was non-empty, and otherwise holds just the generated set |
| `Commands.BackThenForward` | src/main.rs:274-291 | a successful Left followed by Right restores the whole history |
| `Commands.HistorySize` | src/main.rs:274-291 | the count of held sets (one active plus both stack lengths) is kept by a successful Left and by a popping Right, and grows by exactly one when Right generates |
| `Commands.BackConservesSets` | src/main.rs:274-281 | Left keeps the multiset of held parameter sets |
| `Commands.ForwardConservesSets` | src/main.rs:282-291 | Right keeps the multiset of held parameter sets, adding only the generated one when it generates |
| `Commands.TogglePause` | src/main.rs:254-266 | the definition of Space: a moving speed is stored in the buffer and set to zero; a stopped one resumes at the buffer, or at `DEFAULT_SIM_SPEED` when the buffer is negligible; its laws are the three lemmas below |
| `Commands.TogglePauseAlternates` | src/main.rs:254-266 | Space stops a moving simulation (storing its speed in the buffer) and makes a stopped one move |
| `Commands.PauseThenResume` | src/main.rs:254-266 | pausing a moving simulation and then resuming it restores its speed |
| `Commands.TogglePauseKeepsBufferMoving` | src/main.rs:254-266 | a buffer holding a moving speed keeps one, and a resume then uses it |
| `Commands.ToggleProjection` | src/main.rs:267-273 | Tab always changes the projection |
| `Commands.ToggleProjectionTwice` | src/main.rs:267-273 | Tab twice is the identity |
| `Application.SeedPoint` | src/main.rs:53-58 | the definition of one seed point: angle `offset + (i / n) * pi` at radius `r`, height `2 * i / n * r - r` |
| `Application.IsSeeding` | src/main.rs:50-62 | the closed form of the seeded layout: `2n - 1` points for `n >= 1`, none for `n = 0`, element `k` being seed point `k + 1` |
| `Application.GenerateInitPoints` | src/main.rs:50-62 | seeding with `n >= 1` yields exactly `2n - 1` points and `n = 0` yields none; element `k` is seed point `k + 1` |
| `Application.StepSize` | src/main.rs:179-180 | with speed zero the step size is zero |
| `Application.Session.Valid` | src/main.rs:66-294 | the invariant every command keeps: all held parameter sets are in the generator's range, both buffers hold `2 * point_count - 1` points, the clock is not negative, and the pause buffer holds a moving speed |
| `Application.Session.constructor` | src/main.rs:66-102 | the initial state: a generated active set, empty stacks, speed and buffer at `DEFAULT_SIM_SPEED`, clock at zero, both buffers seeded alike, Point style, orthographic camera at `(0, 0, -10)` with scale 50 |
| `Application.Session.ResetWavefront` | src/main.rs:103-109 | afterwards `wavefront == wavefront_prev`, and both hold the seeded layout of `2 * point_count - 1` points |
| `Application.Session.ResetTime` | src/main.rs:191-193 | the clock is zero |
| `Application.Session.Render` | src/main.rs:117-124 | the frame's segments come from the current and the old previous buffer; afterwards `wavefront_prev == wavefront` and `wavefront` is unchanged |
| `Application.Session.Update` | src/main.rs:175-189 | time grows by exactly 1; the wavefront is the old one stepped pointwise; at speed zero it does not move; the camera moves only in perspective mode |
| `Application.Session.SetPlotStyle` | src/main.rs:235-243 | P, L and R change `plot_style` and nothing else |
| `Application.Session.SpeedUp` | src/main.rs:247-249 | Up adds `sim_speed_mod` to the speed and changes nothing else |
| `Application.Session.SlowDown` | src/main.rs:244-246 | Down subtracts `sim_speed_mod` from the speed and changes nothing else |
| `Application.Session.Reset` | src/main.rs:250-253 | LCtrl zeroes the clock and reseeds both buffers, and changes nothing else |
| `Application.Session.TogglePause` | src/main.rs:254-266 | Space performs `Commands.TogglePause` on the speed and the buffer |
| `Application.Session.ToggleProjection` | src/main.rs:267-273 | Tab swaps the camera's projection and changes nothing else |
| `Application.Session.HistoryBack` | src/main.rs:274-281 | Left performs `Commands.Back`; with an empty previous stack the clock and both buffers are also unchanged, and otherwise the clock is zeroed and the wavefront reseeded |
| `Application.Session.HistoryForward` | src/main.rs:282-291 | Right performs `Commands.Forward` with a freshly generated set, zeroes the clock and reseeds the wavefront |
| `Application.Session.Press` | src/main.rs:233-294 | each key runs its command; P, L and R touch neither the simulation, nor the history, nor the camera; LCtrl leaves the history, the speed, the style and the camera alone; Tab changes only the projection; any other key changes nothing |

## Left out

- The window, the OpenGL context, the event loop, clearing, line and glyph drawing, and the
  text overlay (`VFParams::to_string` and the status strings) are I/O and presentation.
  Only the segments handed to `line_points` and their screen placement are modelled.
- The frame-rate computation is left out, because it reads the wall clock. `args.dt` in
  `update` becomes the parameter `frameDt`.
- `sin`, `cos`, `pi`, cgmath's `look_at` and f64 division by zero are left out, because
  they are float numerics and foreign library calls. They are fields of `FloatOps`. So the
  values of the seed coordinates, the field, the step size and the orbit are not computed,
  only their structure. No identity such as `sin² + cos² = 1` is assumed, so nothing is
  proved about the orbit's radius.
- `hsv` colour conversion is left out, because it is a library call. Only the fraction
  passed to `gen_color` is modelled.
- `thread_rng` is left out, because it is randomness. Its samples are the `Draws`
  parameter: raw integers, and unit-interval floats of `rng.gen::<f64>()`. The two samplers
  follow `rand`'s `Range`: `low + raw % span` for integers and `low + span * unit` for
  floats.
- f64 rounding and non-finite values are not modelled, because the arithmetic is done on
  reals. This affects the `0.001` thresholds, the `±sim_speed_mod` steps and the increments
  of the clock. Once a point's coordinates become infinite or NaN they propagate in the
  program. The model instead carries whatever `FloatOps` gives.
- Math.SampleReal: in f64, `low + span * unit` can round up to `high`; the real-valued
  bound `x < high` does not cover that.
- Math.IntegrateZeroStep: holds on reals; in f64 a zero step leaves a point unchanged only
  while its field value is finite (`0 * inf` is NaN).
- Rendering.PlotPoints: requires `CanPlot`, so the out-of-bounds panic of `wavefront_prev[i]`
  in Point style when the previous buffer is shorter than the wavefront is not modelled.
  The source assumes the two buffers have equal length, and `Session.Valid()` guarantees it
  at the only call site.
- Application.Session.Press: for Up, Down, Space, Left and Right it states the command's
  main effect only. The full frame of each command is stated by the method that key runs.
- The overflow of `n * 2` in `usize` is not modelled, because `point_count` is the
  constant 100.
