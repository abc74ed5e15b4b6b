/** The operator commands of `main` (src/main.rs), as transitions on values: the two-stack
    parameter history behind Left and Right, the pause buffer behind Space, the projection
    toggle behind Tab. `Application.Session` performs them in place; the laws are here. */
module Commands {
  import Math
  import Rendering

  // ---------------------------------------------------------------------------
  // Parameter history (Left / Right)

  /** The active parameter set and the two `Vec` stacks; the top of each stack is its
      last element. */
  datatype History = History(active: Math.VFParams, prev: seq<Math.VFParams>, next: seq<Math.VFParams>)

  function Last<T>(s: seq<T>): T
    requires s != []
  {
    s[|s| - 1]
  }

  function DropLast<T>(s: seq<T>): seq<T>
    requires s != []
  {
    s[..|s| - 1]
  }

  /** Key::Left: pop the previous stack into the active slot and push the active set onto
      the next stack; with nothing to pop, nothing happens. */
  function Back(h: History): History
  {
    if h.prev == [] then h
    else History(Last(h.prev), DropLast(h.prev), h.next + [h.active])
  }

  /** Key::Right: push the active set onto the previous stack, then pop the next stack into
      the active slot, or, when it is empty, make `generated` (a fresh `gen_rand`) active. */
  function Forward(h: History, generated: Math.VFParams): History
  {
    var prev := h.prev + [h.active];
    if h.next == [] then History(generated, prev, [])
    else History(Last(h.next), prev, DropLast(h.next))
  }

  /** The number of parameter sets the history holds. */
  function Size(h: History): nat
  {
    1 + |h.prev| + |h.next|
  }

  function Reversed<T>(s: seq<T>): (r: seq<T>)
    ensures |r| == |s|
  {
    if s == [] then [] else Reversed(s[1..]) + [s[0]]
  }

  lemma {:induction false} ReversedSnoc<T>(s: seq<T>, x: T)
    ensures Reversed(s + [x]) == [x] + Reversed(s)
  {
    if s == [] {
      assert Reversed([x]) == Reversed([x][1..]) + [x];
    } else {
      assert (s + [x])[1..] == s[1..] + [x];
      ReversedSnoc(s[1..], x);
    }
  }

  /** The history read as one timeline, oldest first: the previous stack bottom to top, the
      active set, then the next stack top to bottom. */
  function Timeline(h: History): (t: seq<Math.VFParams>)
    ensures |t| == Size(h)
  {
    h.prev + [h.active] + Reversed(h.next)
  }

  /** The position of the active set on the timeline. */
  function Cursor(h: History): (k: nat)
    ensures k < |Timeline(h)| && Timeline(h)[k] == h.active
  {
    |h.prev|
  }

  /** Left with an empty previous stack changes nothing. */
  lemma BackAtStartIsNoOp(h: History)
    requires h.prev == []
    ensures Back(h) == h
  {
  }

  /** A successful Left moves the cursor one step back along an unchanged timeline. */
  lemma BackMovesCursor(h: History)
    requires h.prev != []
    ensures Timeline(Back(h)) == Timeline(h)
    ensures Cursor(Back(h)) == Cursor(h) - 1
  {
    ReversedSnoc(h.next, h.active);
    assert DropLast(h.prev) + [Last(h.prev)] == h.prev;
  }

  /** Right with a non-empty next stack moves the cursor one step forward along an
      unchanged timeline. */
  lemma ForwardMovesCursor(h: History, generated: Math.VFParams)
    requires h.next != []
    ensures Timeline(Forward(h, generated)) == Timeline(h)
    ensures Cursor(Forward(h, generated)) == Cursor(h) + 1
  {
    ReversedSnoc(DropLast(h.next), Last(h.next));
    assert DropLast(h.next) + [Last(h.next)] == h.next;
  }

  /** Right with an empty next stack appends the generated set to the timeline and moves
      the cursor onto it. */
  lemma ForwardGenerates(h: History, generated: Math.VFParams)
    requires h.next == []
    ensures Timeline(Forward(h, generated)) == Timeline(h) + [generated]
    ensures Cursor(Forward(h, generated)) == Cursor(h) + 1 == |Timeline(h)|
  {
  }

  /** Right then Left restores the active set and the previous stack; the next stack is
      restored too, except that a generated set is left on it. */
  lemma ForwardThenBack(h: History, generated: Math.VFParams)
    ensures Back(Forward(h, generated)) == h.(next := if h.next == [] then [generated] else h.next)
  {
  }

  /** Left then Right, when Left did something, restores the whole history. */
  lemma BackThenForward(h: History, generated: Math.VFParams)
    requires h.prev != []
    ensures Forward(Back(h), generated) == h
  {
  }

  /** A successful Left and a Right that pops keep the number of parameter sets; a Right
      that generates adds exactly one. */
  lemma HistorySize(h: History, generated: Math.VFParams)
    ensures h.prev != [] ==> Size(Back(h)) == Size(h)
    ensures Size(Forward(h, generated)) == Size(h) + (if h.next == [] then 1 else 0)
  {
  }

  /** Every parameter set the history holds, counted with multiplicity. */
  function Held(h: History): multiset<Math.VFParams>
  {
    multiset(h.prev) + multiset{h.active} + multiset(h.next)
  }

  /** Left never loses or duplicates a parameter set: it only moves them between slots. */
  lemma BackConservesSets(h: History)
    ensures Held(Back(h)) == Held(h)
  {
    if h.prev != [] {
      var b := Back(h);
      assert h.prev == b.prev + [b.active];
      assert multiset(h.prev) == multiset(b.prev) + multiset{b.active};
      assert multiset(b.next) == multiset(h.next) + multiset{h.active};
    }
  }

  /** Right never loses or duplicates a parameter set: a popping Right only moves them
      between slots, and a generating Right adds just the generated one. */
  lemma ForwardConservesSets(h: History, generated: Math.VFParams)
    ensures Held(Forward(h, generated)) == Held(h) + (if h.next == [] then multiset{generated} else multiset{})
  {
    var f := Forward(h, generated);
    assert multiset(f.prev) == multiset(h.prev) + multiset{h.active};
    if h.next != [] {
      assert h.next == f.next + [f.active];
      assert multiset(h.next) == multiset(f.next) + multiset{f.active};
    }
  }

  // ---------------------------------------------------------------------------
  // Simulation speed (Space / Up / Down)

  /** `DEFAULT_SIM_SPEED`, the speed a resume falls back to. */
  const DefaultSimSpeed: real := 15.0
  /** The magnitude below which a speed counts as paused. */
  const PauseThreshold: real := 0.001
  /** `sim_speed_mod`, the step of Up and Down. */
  const SimSpeedStep: real := 0.1

  function Abs(x: real): real
  {
    if x < 0.0 then -x else x
  }

  predicate Moving(speed: real)
  {
    Abs(speed) > PauseThreshold
  }

  /** The simulation speed and the `sim_speed_buffer` local of `main`. */
  datatype SpeedState = SpeedState(speed: real, buffer: real)

  /** Key::Space: a moving simulation stores its speed and stops; a stopped one resumes at
      the stored speed, or at the default when the stored one is negligible too. */
  function TogglePause(st: SpeedState): SpeedState
  {
    if Moving(st.speed) then SpeedState(0.0, st.speed)
    else SpeedState(if Moving(st.buffer) then st.buffer else DefaultSimSpeed, st.buffer)
  }

  /** Space pauses exactly when the simulation was moving, and resumes it otherwise. */
  lemma TogglePauseAlternates(st: SpeedState)
    ensures Moving(TogglePause(st).speed) <==> !Moving(st.speed)
    ensures Moving(st.speed) ==> TogglePause(st) == SpeedState(0.0, st.speed)
  {
  }

  /** Pausing a moving simulation and resuming it restores its speed. */
  lemma PauseThenResume(st: SpeedState)
    requires Moving(st.speed)
    ensures TogglePause(TogglePause(st)) == SpeedState(st.speed, st.speed)
  {
  }

  /** The buffer only ever receives a moving speed, so it stays non-negligible once it is;
      it starts at the default, so the default branch of a resume is never taken. */
  lemma TogglePauseKeepsBufferMoving(st: SpeedState)
    requires Moving(st.buffer)
    ensures Moving(TogglePause(st).buffer)
    ensures !Moving(st.speed) ==> TogglePause(st).speed == st.buffer
  {
  }

  // ---------------------------------------------------------------------------
  // Projection (Tab)

  /** Key::Tab: swap orthographic and perspective projection. */
  function ToggleProjection(proj: Rendering.CameraProjection): (r: Rendering.CameraProjection)
    ensures r != proj
  {
    match proj
    case Orthographic => Rendering.Perspective
    case Perspective => Rendering.Orthographic
  }

  /** Pressing Tab twice restores the projection. */
  lemma ToggleProjectionTwice(proj: Rendering.CameraProjection)
    ensures ToggleProjection(ToggleProjection(proj)) == proj
  {
  }

  // ---------------------------------------------------------------------------
  // Keys

  /** The keys `main` reacts to; every other input is `Other`. */
  datatype Key = P | L | R | Down | Up | LCtrl | Space | Tab | Left | Right | Other
}
