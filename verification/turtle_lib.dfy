/** The animation library: the animated turtle figure, the process-wide frame
    scheduler that steps every registered figure and then runs every per-frame
    callback, and the arithmetic that fits the world coordinates to a height
    range. Drawing is not modelled: a figure is its pose and animation state. */
module TurtleLib {
  import opened Wrappers

  /** Frame interval in milliseconds (about 30 frames per second). */
  const FrameMs: nat := 33
  /** The nominal time step handed to every body and callback on every tick. */
  const Dt: real := FrameMs as real / 1000.0
  /** 2π, as the product `2 * math.pi` evaluates to. */
  const TwoPi: real := 6.283185307179586
  /** Aspect ratio used when the window reports a height of 0. */
  const DefaultAspect: real := 1.3333

  datatype Vec = Vec(x: real, y: real)

  const Zero: Vec := Vec(0.0, 0.0)

  /** `_apply_motion`: a zero velocity returns early; otherwise the position moves
      by velocity·dt. Either way the result is the uniform formula. */
  function Moved(pos: Vec, velocity: Vec, dt: real): (r: Vec)
    ensures r == Vec(pos.x + velocity.x * dt, pos.y + velocity.y * dt)
    ensures velocity == Zero ==> r == pos
  {
    if velocity == Zero then pos
    else Vec(pos.x + velocity.x * dt, pos.y + velocity.y * dt)
  }

  /** The part of a figure that the scheduler and the setters change. */
  datatype BodyState = BodyState(pos: Vec, ori: real, size: real, phase: real,
                                 speed: real, animate: bool, velocity: Vec)

  /** `_frame_step(dt)` on values: the phase advances by 2π·speed·dt only while
      animating, and the position moves by velocity·dt whether or not it is. */
  function FrameStepped(b: BodyState, dt: real): (r: BodyState)
    ensures b.animate ==> r.phase == b.phase + TwoPi * b.speed * dt
    ensures !b.animate ==> r.phase == b.phase
    ensures r.pos == Vec(b.pos.x + b.velocity.x * dt, b.pos.y + b.velocity.y * dt)
    ensures r.(pos := b.pos, phase := b.phase) == b
  {
    var phase := if b.animate then b.phase + TwoPi * b.speed * dt else b.phase;
    b.(phase := phase, pos := Moved(b.pos, b.velocity, dt))
  }

  /** A body that does not move and does not animate is left as it is by a step. */
  lemma FrameStepAtRest(b: BodyState, dt: real)
    requires !b.animate && b.velocity == Zero
    ensures FrameStepped(b, dt) == b
  {
  }

  /** Two steps of the same body compose into one step of the summed time. */
  lemma FrameStepsCompose(b: BodyState, d1: real, d2: real)
    ensures FrameStepped(FrameStepped(b, d1), d2) == FrameStepped(b, d1 + d2)
  {
    var once := FrameStepped(b, d1);
    assert TwoPi * b.speed * d1 + TwoPi * b.speed * d2 == TwoPi * b.speed * (d1 + d2);
    assert b.velocity.x * d1 + b.velocity.x * d2 == b.velocity.x * (d1 + d2);
    assert b.velocity.y * d1 + b.velocity.y * d2 == b.velocity.y * (d1 + d2);
  }

  // ---------------------------------------------------------------------------
  // Registry lists

  /** No element occurs twice. */
  predicate NoDup<T(==)>(s: seq<T>) {
    forall i, j :: 0 <= i < j < |s| ==> s[i] != s[j]
  }

  /** Appending when absent: the list as `if x not in s: s.append(x)` leaves it. */
  function AppendIfAbsent<T(==)>(s: seq<T>, x: T): (r: seq<T>)
    ensures x in r
    ensures x in s ==> r == s
    ensures x !in s ==> |r| == |s| + 1 && r[..|s|] == s && r[|s|] == x
    ensures NoDup(s) ==> NoDup(r)
  {
    if x in s then s else s + [x]
  }

  /** Python's `list.remove(x)`: drops the first occurrence of `x`. */
  function RemoveFirst<T(==)>(s: seq<T>, x: T): (r: seq<T>)
    ensures x !in s ==> r == s
    ensures x in s ==> |r| == |s| - 1
  {
    if s == [] then []
    else if s[0] == x then s[1..]
    else [s[0]] + RemoveFirst(s[1..], x)
  }

  /** The position of the first occurrence of `x`. */
  function FirstIndex<T(==)>(s: seq<T>, x: T): (i: nat)
    requires x in s
    ensures i < |s| && s[i] == x && x !in s[..i]
  {
    if s[0] == x then 0
    else
      var k := FirstIndex(s[1..], x);
      assert s[..k + 1] == [s[0]] + s[1..][..k];
      k + 1
  }

  /** Removing keeps the others in their relative order: the result is the list
      with exactly the position of the first `x` cut out. */
  lemma {:induction false} RemoveFirstCutsOut<T>(s: seq<T>, x: T)
    requires x in s
    ensures RemoveFirst(s, x) == s[..FirstIndex(s, x)] + s[FirstIndex(s, x) + 1..]
  {
    if s[0] == x {
      assert FirstIndex(s, x) == 0;
      assert s[..0] == [];
    } else {
      var t := s[1..];
      assert x in t by {
        var m :| 0 <= m < |s| && s[m] == x;
        assert t[m - 1] == x;
      }
      RemoveFirstCutsOut(t, x);
      var k := FirstIndex(t, x);
      assert FirstIndex(s, x) == k + 1;
      calc {
        RemoveFirst(s, x);
        [s[0]] + RemoveFirst(t, x);
        [s[0]] + (t[..k] + t[k + 1..]);
        { assert s[..k + 1] == [s[0]] + t[..k]; assert s[k + 2..] == t[k + 1..]; }
        s[..k + 1] + s[k + 2..];
      }
    }
  }

  /** Removing from a duplicate-free list leaves it duplicate-free and without `x`. */
  lemma RemoveFirstKeepsNoDup<T>(s: seq<T>, x: T)
    requires NoDup(s)
    ensures NoDup(RemoveFirst(s, x)) && x !in RemoveFirst(s, x)
  {
    if x in s {
      RemoveFirstCutsOut(s, x);
      var i := FirstIndex(s, x);
      var r := RemoveFirst(s, x);
      assert forall k :: 0 <= k < |r| ==> r[k] == if k < i then s[k] else s[k + 1];
    }
  }

  // ---------------------------------------------------------------------------
  // The animated figure

  /** `TurtleCharacter`: a figure whose pose and animation state change in place. */
  class Turtle {
    var size: real
    var pos: Vec
    var ori: real
    /** Radians. */
    var phase: real
    /** Leg cycles per second. */
    var speed: real
    var animate: bool
    /** Units per second. */
    var velocity: Vec

    function State(): BodyState
      reads this
    {
      BodyState(pos, ori, size, phase, speed, animate, velocity)
    }

    constructor(size: real, posX: real, posY: real, orientationDeg: real)
      ensures State() == BodyState(Vec(posX, posY), orientationDeg, size, 0.0, 0.0, false, Zero)
    {
      this.size := size;
      pos := Vec(posX, posY);
      ori := orientationDeg;
      phase := 0.0;
      speed := 0.0;
      animate := false;
      velocity := Zero;
    }

    /** `advance_phase`: unconditionally adds 2π·speed·dt to the phase. */
    method AdvancePhase(dt: real)
      modifies this
      ensures State() == old(State()).(phase := old(phase) + TwoPi * old(speed) * dt)
    {
      phase := phase + TwoPi * speed * dt;
    }

    /** `set_velocity` (and the wrapper `moveturtle`). */
    method SetVelocity(vx: real, vy: real)
      modifies this
      ensures State() == old(State()).(velocity := Vec(vx, vy))
    {
      velocity := Vec(vx, vy);
    }

    /** `_apply_motion`. */
    method ApplyMotion(dt: real)
      modifies this
      ensures pos == Moved(old(pos), old(velocity), dt)
      ensures State() == old(State()).(pos := pos)
    {
      if velocity == Zero {
        assert Moved(pos, velocity, dt) == pos;
        return;
      }
      var moved := Vec(pos.x + velocity.x * dt, pos.y + velocity.y * dt);
      assert moved == Moved(pos, velocity, dt);
      pos := moved;
    }

    /** `_frame_step`: animate the phase if enabled, then move. */
    method FrameStep(dt: real)
      modifies this
      ensures State() == FrameStepped(old(State()), dt)
    {
      if animate {
        AdvancePhase(dt);
      }
      ApplyMotion(dt);
    }

    /** `start_animation` (and the wrapper `animateturtle`): sets the speed, turns
        animation on and makes sure the ticker runs. Starting the ticker runs one
        tick at once, which steps this figure too when it is registered. */
    method StartAnimation(speedCps: real, scheduler: Scheduler) returns (trace: seq<Event>)
      requires scheduler.Valid()
      modifies this, scheduler, scheduler.Bodies()
      ensures State() == old(State()).(speed := speedCps, animate := true)
      ensures scheduler.Valid() && scheduler.tickRunning
      ensures scheduler.instances == old(scheduler.instances)
      ensures scheduler.callbacks == old(scheduler.callbacks)
      ensures forall u :: u in scheduler.instances && u != this ==> u.State() == old(u.State())
      ensures old(scheduler.tickRunning) ==> trace == []
      ensures !old(scheduler.tickRunning) ==> trace == TickTrace([], scheduler.callbacks)
    {
      speed := speedCps;
      animate := true;
      trace := scheduler.EnsureTicker();
    }

    /** `stop_animation` (and the wrapper `stopturtle`): clears only the flag. */
    method StopAnimation()
      modifies this
      ensures State() == old(State()).(animate := false)
    {
      animate := false;
    }

    /** `tpturtle`: teleports; the orientation changes only when one is given. */
    method Teleport(x: real, y: real, orientationDeg: Option<real>)
      modifies this
      ensures State() == old(State()).(pos := Vec(x, y), ori := orientationDeg.GetOr(old(ori)))
    {
      pos := Vec(x, y);
      if orientationDeg.Some? {
        ori := orientationDeg.value;
      }
    }
  }

  // ---------------------------------------------------------------------------
  // The frame scheduler

  /** The identity of a per-frame callable; the scheduler only compares them. */
  type Callback = nat

  /** What one tick does, in order: a body stepped, or a callback invoked. */
  datatype Event = StepBody(body: Turtle, dt: real) | Invoke(callback: Callback, dt: real)

  /** The events of one tick over the given snapshots of the two lists: every body
      in list order, then every callback in registration order, all with `Dt`. */
  function TickTrace(bodies: seq<Turtle>, callbacks: seq<Callback>): (r: seq<Event>)
    ensures |r| == |bodies| + |callbacks|
  {
    seq(|bodies|, i requires 0 <= i < |bodies| => StepBody(bodies[i], Dt))
    + seq(|callbacks|, i requires 0 <= i < |callbacks| => Invoke(callbacks[i], Dt))
  }

  /** The ordering a tick guarantees: all body steps come before any callback,
      bodies and callbacks keep their list order, and every event uses `Dt`. */
  lemma TickOrdering(bodies: seq<Turtle>, callbacks: seq<Callback>)
    ensures var tr := TickTrace(bodies, callbacks);
            forall i, j :: 0 <= i < |tr| && 0 <= j < |tr| && tr[i].StepBody? && tr[j].Invoke? ==> i < j
    ensures forall e :: e in TickTrace(bodies, callbacks) ==> e.dt == Dt
    ensures forall i :: 0 <= i < |bodies| ==> TickTrace(bodies, callbacks)[i] == StepBody(bodies[i], Dt)
    ensures forall j :: 0 <= j < |callbacks| ==>
              TickTrace(bodies, callbacks)[|bodies| + j] == Invoke(callbacks[j], Dt)
  {
  }

  /** With a duplicate-free registry no event occurs twice in a tick: each
      registered body is stepped once and each callback is invoked once. */
  lemma TickStepsEachOnce(bodies: seq<Turtle>, callbacks: seq<Callback>)
    requires NoDup(bodies) && NoDup(callbacks)
    ensures NoDup(TickTrace(bodies, callbacks))
  {
    var tr := TickTrace(bodies, callbacks);
    forall i, j | 0 <= i < j < |tr| ensures tr[i] != tr[j] {
      if j < |bodies| {
        assert tr[i] == StepBody(bodies[i], Dt) && tr[j] == StepBody(bodies[j], Dt);
      } else if i >= |bodies| {
        assert tr[i] == Invoke(callbacks[i - |bodies|], Dt);
        assert tr[j] == Invoke(callbacks[j - |bodies|], Dt);
      }
    }
  }

  /** The process-wide registry: `_INSTANCES`, `_FRAME_CALLBACKS` and the lazy
      start flag `_TICK_RUNNING` (inert until first use, then running for good). */
  class Scheduler {
    var instances: seq<Turtle>
    var callbacks: seq<Callback>
    var tickRunning: bool

    /** Both lists are free of duplicates. */
    ghost predicate NoDuplicates()
      reads this
    {
      NoDup(instances) && NoDup(callbacks)
    }

    /** No duplicates, and no figure is registered while the ticker is inert:
        registering a figure always starts it. */
    ghost predicate Valid()
      reads this
    {
      NoDuplicates() && (!tickRunning ==> instances == [])
    }

    /** The figures a tick may change. */
    ghost function Bodies(): set<Turtle>
      reads this
    {
      set t | t in instances
    }

    constructor()
      ensures Valid() && instances == [] && callbacks == [] && !tickRunning
    {
      instances := [];
      callbacks := [];
      tickRunning := false;
    }

    /** `add_frame_callback`: appends only when absent. */
    method AddFrameCallback(f: Callback)
      requires Valid()
      modifies this
      ensures Valid()
      ensures callbacks == AppendIfAbsent(old(callbacks), f)
      ensures instances == old(instances) && tickRunning == old(tickRunning)
    {
      if f !in callbacks {
        callbacks := callbacks + [f];
      }
    }

    /** `remove_frame_callback`: removes a present callback; a no-op otherwise. */
    method RemoveFrameCallback(f: Callback)
      requires Valid()
      modifies this
      ensures Valid() && f !in callbacks
      ensures callbacks == RemoveFirst(old(callbacks), f)
      ensures instances == old(instances) && tickRunning == old(tickRunning)
    {
      RemoveFirstKeepsNoDup(callbacks, f);
      if f in callbacks {
        callbacks := RemoveFirst(callbacks, f);
      }
    }

    /** `_tick`, less the redraw and the rescheduling: steps every registered
        body with `Dt` in list order, then invokes every callback with `Dt`. Both
        loops run over a snapshot of their list. */
    method Tick() returns (trace: seq<Event>)
      requires NoDuplicates()
      modifies Bodies()
      ensures trace == TickTrace(instances, callbacks)
      ensures forall t :: t in instances ==> t.State() == FrameStepped(old(t.State()), Dt)
    {
      var snapshot := instances;
      trace := [];
      for i := 0 to |snapshot|
        invariant |trace| == i
        invariant forall k :: 0 <= k < i ==> trace[k] == StepBody(snapshot[k], Dt)
        invariant forall k :: 0 <= k < i ==>
                    snapshot[k].State() == FrameStepped(old(snapshot[k].State()), Dt)
        invariant forall k :: i <= k < |snapshot| ==> snapshot[k].State() == old(snapshot[k].State())
      {
        snapshot[i].FrameStep(Dt);
        trace := trace + [StepBody(snapshot[i], Dt)];
      }
      var pending := callbacks;
      for j := 0 to |pending|
        invariant |trace| == |snapshot| + j
        invariant forall k :: 0 <= k < |snapshot| ==> trace[k] == StepBody(snapshot[k], Dt)
        invariant forall k :: 0 <= k < j ==> trace[|snapshot| + k] == Invoke(pending[k], Dt)
      {
        trace := trace + [Invoke(pending[j], Dt)];
      }
      assert trace == TickTrace(instances, callbacks);
    }

    /** `_ensure_ticker`: the inert-to-running transition happens once and runs the
        first tick; when already running nothing changes and no tick runs. */
    method EnsureTicker() returns (trace: seq<Event>)
      requires NoDuplicates()
      modifies this, Bodies()
      ensures Valid() && tickRunning
      ensures instances == old(instances) && callbacks == old(callbacks)
      ensures old(tickRunning) ==> trace == [] && forall t :: t in instances ==> t.State() == old(t.State())
      ensures !old(tickRunning) ==> trace == TickTrace(instances, callbacks)
      ensures !old(tickRunning) ==> forall t :: t in instances ==> t.State() == FrameStepped(old(t.State()), Dt)
    {
      if tickRunning {
        return [];
      }
      tickRunning := true;
      trace := Tick();
    }

    /** `_register_instance`: appends when absent, then makes sure the ticker runs. */
    method RegisterInstance(t: Turtle) returns (trace: seq<Event>)
      requires Valid()
      modifies this, Bodies(), t
      ensures Valid() && tickRunning
      ensures instances == AppendIfAbsent(old(instances), t)
      ensures callbacks == old(callbacks)
      ensures old(tickRunning) ==> trace == [] && forall u :: u in instances ==> u.State() == old(u.State())
      ensures !old(tickRunning) ==> trace == TickTrace(instances, callbacks)
      ensures !old(tickRunning) ==> forall u :: u in instances ==> u.State() == FrameStepped(old(u.State()), Dt)
    {
      if t !in instances {
        instances := instances + [t];
      }
      trace := EnsureTicker();
    }

    /** `drawturtle`: creates a figure and registers it. */
    method DrawTurtle(size: real, posX: real, posY: real, orientationDeg: real)
      returns (t: Turtle, trace: seq<Event>)
      requires Valid()
      modifies this, Bodies()
      ensures Valid() && tickRunning && fresh(t)
      ensures instances == old(instances) + [t] && callbacks == old(callbacks)
      ensures t.State() == BodyState(Vec(posX, posY), orientationDeg, size, 0.0, 0.0, false, Zero)
      ensures forall u :: u in old(instances) ==> u.State() == old(u.State())
      ensures old(tickRunning) ==> trace == []
      ensures !old(tickRunning) ==> trace == TickTrace([t], callbacks)
    {
      t := new Turtle(size, posX, posY, orientationDeg);
      trace := RegisterInstance(t);
      FrameStepAtRest(BodyState(Vec(posX, posY), orientationDeg, size, 0.0, 0.0, false, Zero), Dt);
    }
  }

  // ---------------------------------------------------------------------------
  // World-coordinate fitting (arithmetic only; the window size is a parameter)

  /** Lower-left and upper-right corners of the world coordinate system. */
  datatype WorldBox = WorldBox(xLo: real, yLo: real, xHi: real, yHi: real)

  /** Window width over height, or the fallback for a zero height. */
  function Aspect(winW: int, winH: int): (r: real)
    ensures winH == 0 ==> r == DefaultAspect
    ensures winH != 0 ==> r * winH as real == winW as real
  {
    if winH != 0 then winW as real / winH as real else DefaultAspect
  }

  /** The default horizontal centre of `fit_world_to_height`. */
  const DefaultXCenter: real := 0.0
  /** The default vertical margin, as a fraction of the height range. */
  const DefaultMarginFrac: real := 0.1

  /** The arithmetic of `fit_world_to_height`; a call that omits `x_center` or
      `margin_frac` passes `DefaultXCenter` or `DefaultMarginFrac`. */
  function FitWorld(winW: int, winH: int, yMin: real, yMax: real, xCenter: real, marginFrac: real)
    : (r: WorldBox)
    ensures r.yLo + r.yHi == yMin + yMax
    ensures r.yHi - r.yLo == (yMax - yMin) * (1.0 + 2.0 * marginFrac)
    ensures r.xLo + r.xHi == 2.0 * xCenter
    ensures r.xHi - r.xLo == (r.yHi - r.yLo) * Aspect(winW, winH)
  {
    var yRange := (yMax - yMin) * (1.0 + 2.0 * marginFrac);
    var yMid := 0.5 * (yMin + yMax);
    var xRange := yRange * Aspect(winW, winH);
    WorldBox(xCenter - 0.5 * xRange, yMid - 0.5 * yRange, xCenter + 0.5 * xRange, yMid + 0.5 * yRange)
  }

  /** No distortion: the fitted box has the window's proportions, and a
      non-negative margin never shows less than the requested range. */
  lemma FitWorldKeepsProportions(winW: int, winH: int, yMin: real, yMax: real, xCenter: real,
                                 marginFrac: real)
    requires winH != 0
    ensures var r := FitWorld(winW, winH, yMin, yMax, xCenter, marginFrac);
            (r.xHi - r.xLo) * winH as real == (r.yHi - r.yLo) * winW as real
    ensures var r := FitWorld(winW, winH, yMin, yMax, xCenter, marginFrac);
            yMin <= yMax && marginFrac >= 0.0 ==> r.yLo <= yMin && yMax <= r.yHi
  {
    var r := FitWorld(winW, winH, yMin, yMax, xCenter, marginFrac);
    var a := Aspect(winW, winH);
    var yr := r.yHi - r.yLo;
    calc {
      (r.xHi - r.xLo) * winH as real;
      yr * a * winH as real;
      yr * (a * winH as real);
      yr * winW as real;
    }
    if yMin <= yMax && marginFrac >= 0.0 {
      var span, margin := yMax - yMin, 2.0 * marginFrac;
      assert span >= 0.0 && margin >= 0.0;
      assert span * margin >= 0.0;
      assert yr == span + span * margin;
    }
  }
}
