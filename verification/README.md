# TurtleTurtle: scheduler, playback clock and SUVAT integrator in Dafny

This project models the logic of a small animation demo written in Python on top
of the `turtle` graphics module. Two cartoon turtles, Alpha and Beta, move
vertically. Alpha is dropped from a height of 80 and Beta is thrown up from the
ground at 20. There are three pieces of logic:

- **TurtleLib.py** is the animation library (`turtle_lib.dfy`, module `TurtleLib`):
  - a process-wide frame scheduler, `Scheduler`, with two insertion-ordered
    duplicate-free lists (the registered figures and the per-frame callbacks)
    and a one-way lazy start flag;
  - the tick, which steps every figure with the fixed 33 ms time step and then
    invokes every callback with it;
  - the figure, `Turtle`, whose phase, position, velocity, speed and animation
    flag are changed in place;
  - the arithmetic of fitting the world coordinates to a height range.
- **main.py** is the playback demo:
  - `motion_model.dfy`, module `MotionModel`, holds the closed-form height and
    velocity of each body (time clamped at 0, inelastic stop at the ground) and
    the clamp of the playback time;
  - `playback.dfy`, module `Playback`, holds the controller that keeps a figure
    in sync with its model, and the playback state (rate, pause, simulation
    time, the scrubber guard) with its handlers.
- **kinematics.py** is a fixed-micro-step SUVAT integrator (`kinematics.dfy`,
  module `Kinematics`):
  - a body class whose `move` advances it by 1 ms in an "up" or "down" phase;
  - a script that drives Alpha and Beta for 4999 iterations, with a ground guard
    for each.

`wrappers.dfy` holds the `Option` type. It stands for "no value given" and for a
value that does not convert to a number.

All quantities are `real`. `G` and `MAX_TIME` are parameters of `Playback`,
because `MAX_TIME` involves a square root. 2π is the constant
`TurtleLib.TwoPi`. Python's `round` is modelled as round-half-to-even on reals
(`Kinematics.RoundHalfEven`). `round(h, 0) == 0` is then exactly
`-0.5 <= h <= 0.5` (`Kinematics.RoundsToZeroIff`).

Each piece keeps the form of its source:
- The pure parts are functions with lemmas: the state functions, the clamp, the
  frame step on values, `move` on values, the driver iteration on values and the
  fit arithmetic.
- The parts that mutate are classes whose methods are proved against those
  functions. These are the figure, the scheduler, the controller, the playback
  state and the `suvat` body. The driver loop is a `for` loop over two `Suvat`
  objects, and its invariant ties it to `DriverRun`.

The driver loop follows the code as written, including the write to
`Alpha.acceleration` inside Beta's ground guard (kinematics.py:55). The
corrected definitions are stated beside it; see "## Findings".

## Model

| member | source | states |
|---|---|---|
| TurtleLib.Moved | TurtleLib.py:185-190 | The position moves by velocity·dt, and a zero velocity (the early return) leaves it where it was |
| TurtleLib.FrameStepped | TurtleLib.py:179-196 | One frame step: the phase gains 2π·speed·dt only while animating; the position moves by velocity·dt whether or not it animates; nothing else changes |
| TurtleLib.FrameStepAtRest | TurtleLib.py:185-195 | A figure that neither animates nor moves is left exactly as it was by a frame step |
| TurtleLib.FrameStepsCompose | TurtleLib.py:179-190 | Two frame steps of d1 and d2 equal one step of d1+d2 |
| TurtleLib.AppendIfAbsent | TurtleLib.py:230-232 | After the call the element is present; the list is unchanged if it was present, and otherwise has it appended at the end; no duplicate is ever created |
| TurtleLib.RemoveFirst | TurtleLib.py:234-236 | Removing an absent element is a no-op; removing a present one shortens the list by one |
| TurtleLib.RemoveFirstCutsOut | TurtleLib.py:234-236 | Removal cuts out exactly the first occurrence, so the others keep their relative order |
| TurtleLib.RemoveFirstKeepsNoDup | TurtleLib.py:234-236 | Removing from a duplicate-free list keeps it duplicate-free and leaves the element absent |
| TurtleLib.Turtle.constructor | TurtleLib.py:41-62 | A new figure is at the given position and orientation, with phase 0, speed 0, animation off and zero velocity |
| TurtleLib.Turtle.AdvancePhase | TurtleLib.py:179-180 | The phase gains 2π·speed·dt unconditionally; nothing else changes |
| TurtleLib.Turtle.SetVelocity | TurtleLib.py:182-183 | Sets the velocity and nothing else (also the `moveturtle` wrapper, TurtleLib.py:220-221) |
| TurtleLib.Turtle.ApplyMotion | TurtleLib.py:185-190 | The new position is `Moved` of the old position and velocity; nothing else changes |
| TurtleLib.Turtle.FrameStep | TurtleLib.py:192-196 | The new state is `FrameStepped` of the old one |
| TurtleLib.Turtle.StartAnimation | TurtleLib.py:198-201 | Sets the speed and turns animation on, and nothing else of the figure changes; the ticker is running afterwards; no other registered figure changes; the tick this call may start finds no figure registered and only invokes the callbacks |
| TurtleLib.Turtle.StopAnimation | TurtleLib.py:203-204 | Clears only the animation flag; speed, phase, velocity and position are untouched |
| TurtleLib.Turtle.Teleport | TurtleLib.py:223-226 | Sets the position exactly; the orientation changes only when one is supplied |
| TurtleLib.TickTrace | TurtleLib.py:253-258 | A tick has one event per registered figure plus one per callback |
| TurtleLib.TickOrdering | TurtleLib.py:253-258 | Every figure step comes before any callback; figures go in list order and callbacks in registration order; every event uses the 33/1000 s step |
| TurtleLib.TickStepsEachOnce | TurtleLib.py:253-258 | With duplicate-free lists, no figure is stepped twice and no callback is invoked twice in one tick |
| TurtleLib.Scheduler.constructor | TurtleLib.py:10-12 | The registry starts with empty lists and the ticker inert; every operation keeps both lists duplicate-free and no figure is registered while the ticker is inert (registering starts it, TurtleLib.py:242-245) |
| TurtleLib.Scheduler.AddFrameCallback | TurtleLib.py:230-232 | The callback list becomes `AppendIfAbsent` of the old one and stays duplicate-free; nothing else changes |
| TurtleLib.Scheduler.RemoveFrameCallback | TurtleLib.py:234-236 | The callback list becomes `RemoveFirst` of the old one, stays duplicate-free and no longer holds the callback; nothing else changes |
| TurtleLib.Scheduler.Tick | TurtleLib.py:253-258 | Iterating over snapshots, the tick steps every registered figure by `FrameStepped` with the 33/1000 s step, in list order, then invokes every callback in order; its events are `TickTrace` |
| TurtleLib.Scheduler.EnsureTicker | TurtleLib.py:247-262 | The inert-to-running transition happens once and runs the first tick; when the ticker is already running, nothing changes and no tick runs; the flag is true afterwards |
| TurtleLib.Scheduler.RegisterInstance | TurtleLib.py:242-245 | The figure list becomes `AppendIfAbsent` of the old one and stays duplicate-free; the ticker is running afterwards |
| TurtleLib.Scheduler.DrawTurtle | TurtleLib.py:208-212 | A fresh figure is created at the given pose, at rest and not animating, and is appended to the registry; the ticker is running afterwards; the figures registered before are unchanged; if the call starts the ticker, the first tick steps only the new figure, which leaves it as it was |
| TurtleLib.Aspect | TurtleLib.py:282 | The aspect is width/height, falling back to 1.3333 when the height is 0 |
| TurtleLib.FitWorld | TurtleLib.py:284-294 | The y-range is centred on (y_min+y_max)/2 with height (y_max−y_min)·(1+2·margin); the x-range is centred on x_center with width y_range·aspect |
| TurtleLib.FitWorldKeepsProportions | TurtleLib.py:272-294 | The box has the window's proportions, so there is no distortion; a non-negative margin shows at least [y_min, y_max] |
| MotionModel.GroundClamp | main.py:39-41 | The ground stop: the result is the input or the rest state; its height is never negative; at height 0 the velocity is 0; a positive height passes through unchanged |
| MotionModel.StateAt | main.py:89-104 | Negative time counts as 0; the result is (0,0) whenever h0+v0·t−½g·t² ≤ 0, and otherwise exactly that height with velocity v0−g·t; the height is never negative |
| MotionModel.AlphaState | main.py:89-95 | With g ≥ 0, Alpha's height stays between 0 and 80 and its velocity is never upwards |
| MotionModel.BetaState | main.py:98-104 | With g ≥ 0, Beta's height is never negative and its upward velocity never exceeds 20 |
| MotionModel.BetaApexBound | main.py:98-104 | Beta never rises above 20²/(2g), and reaches that height at time 20/g |
| MotionModel.NegativeTimeIsStart | main.py:89-104 | Any negative time gives the same state as time 0 |
| MotionModel.BetaStartsAtRest | main.py:98-104 | `beta_state(0)` is (0,0), because a height of exactly 0 takes the ground branch |
| MotionModel.GroundIsAbsorbing | main.py:89-104 | For a start on or above the ground and g ≥ 0, once a body is on the ground at a positive time, it is at rest at every later time |
| MotionModel.AlphaStaysLanded | main.py:89-95 | Once Alpha's height is 0, `alpha_state` is (0,0) at every later time |
| MotionModel.BetaStaysLanded | main.py:98-104 | Once Beta has come back down at a positive time, `beta_state` is (0,0) at every later time |
| MotionModel.BothLandedAtMaxTime | main.py:84-86 | At MAX_TIME, the larger of the two landing times, both bodies are at rest on the ground |
| MotionModel.ClampTime | main.py:165-166 | The clamp lies in [0, MAX_TIME]; it is the identity on that interval; it gives MAX_TIME above it and 0 below it |
| MotionModel.ClampTimeIdempotent | main.py:165-166 | Clamping twice equals clamping once |
| Playback.Controller.constructor | main.py:23-34 | A controller starts at time 0, at its initial height, with zero velocity and zero displacement |
| Playback.Controller.SetTime | main.py:36-49 | For any model function: the time becomes max(0,t); height and velocity are the ground-clamped model values, so the height is never negative and is at rest at 0; the displacement is the height minus the initial height; the figure is at (x, height) with velocity (0, velocity), and nothing else of it changes |
| Playback.Controller.Step | main.py:51-52 | `step(dt)` is `set_time(current_time + dt)` |
| Playback.Controller.GetHeight | main.py:68-69 | The height returned is the initial height plus the displacement |
| Playback.Controller.SetPose | main.py:71-72 | Moves the figure to this controller's column at the given height; nothing else of the figure changes |
| Playback.PlaybackState.constructor | main.py:139-162 | Start-up: the object keeps the given g, MAX_TIME and scrubber flag; both controllers over distinct figures and the two state functions, rate 1, not paused, the guard down; both controllers synced at time 0 (main.py:247), Alpha at height 80 and Beta at height 0, both at rest; the figures' orientation, phase, speed, animation flag and size are kept |
| Playback.PlaybackState.UpdateSimulation | main.py:234-243 | The simulation time becomes the clamped time; both controllers are set to it and hold the ground-clamped model state at it; the label values are the relative height and its negation; only the figures' position and velocity change |
| Playback.PlaybackState.SetPlaybackRate | main.py:169-174 | The rate becomes the number given, or 1.0 for an input that is not a number |
| Playback.PlaybackState.TogglePause | main.py:177-181 | The flag is negated, so two toggles restore it |
| Playback.PlaybackState.OnScrub | main.py:184-192 | While the guard is up, or for an input that is not a number, nothing changes; otherwise the time jumps to the clamped value, both controllers hold the ground-clamped model state at it, and the label values are the relative height and its negation; only the figures' position and velocity change |
| Playback.PlaybackState.OnFrame | main.py:250-262 | Paused or at rate 0, the time is unchanged; otherwise it becomes clamp(time + rate·dt); both controllers end at that time holding the ground-clamped model state; the guard is down afterwards whenever it was down before (it stays up only if it was up and either there is no scrubber or the time did not change); the label values are the relative height and its negation; only the figures' position and velocity change |
| Kinematics.RoundHalfEven | kinematics.py:47 | Python's `round`: the result is within ½ of the input, and ties go to the even integer |
| Kinematics.RoundsToZeroIff | kinematics.py:47-52 | `round(h, 0) == 0` holds exactly when −0.5 ≤ h ≤ 0.5 (both directions) |
| Kinematics.MoveState | kinematics.py:20-37 | One 1 ms step: v = u + a·0.001 becomes both velocities; the displacement is (u+v)/2·0.001; "up" adds it to the height and "down" subtracts it; the direction changes only from "up" to "down", exactly when v = 0, and then the acceleration is negated; any other direction keeps height and direction |
| Kinematics.MoveStatusOf | kinematics.py:36-37 | `move` reports an error exactly for a direction other than "up"/"down", which leaves the height unchanged |
| Kinematics.MoveKeepsSuvatRelation | kinematics.py:21-23 | Every step satisfies the SUVAT relation v² = u² + 2·a·s |
| Kinematics.MoveAtRest | kinematics.py:21-23 | With zero velocity and zero acceleration, a step keeps the height and both velocities, so the rest state left by the ground guard is kept |
| Kinematics.TrajectoryStep | kinematics.py:20-35 | A step that keeps its direction keeps the body on its closed-form trajectory u·t + ½·a·t² |
| Kinematics.DescentClosedForm | kinematics.py:34-35 | A "down" body never turns; after n steps its velocity is u + a·t and its height h − (u·t + ½·a·t²), with t = n·0.001 |
| Kinematics.AlphaMatchesClosedForm | kinematics.py:43 | After n steps Alpha's height is exactly the closed-form height at t = n·0.001 that `alpha_state` uses (main.py:91) |
| Kinematics.BetaVelocityNeverZero | kinematics.py:22-27 | Beta's velocity after k steps, 20 − 0.00981·k, is never exactly 0 |
| Kinematics.BetaNeverTurns | kinematics.py:25-30 | Beta never turns: for every n it is "up" with acceleration −g, velocity 20 − g·t and height 20·t − ½·g·t² |
| Kinematics.AlphaGuarded | kinematics.py:47-51 | Alpha's guard puts Alpha at rest (height, both velocities and acceleration 0) when it fires, and leaves it unchanged otherwise |
| Kinematics.DriverStep | kinematics.py:46-70 | One iteration as written: when Beta's guard fires, Beta's height and velocities are zeroed, Alpha's acceleration (not Beta's) becomes 0, and neither body moves; otherwise both bodies move once |
| Kinematics.AlphaRestIsFinal | kinematics.py:47-70 | Once Alpha is at rest in the driver loop, it stays at rest for every later iteration |
| Kinematics.ScriptBetaOnlyMoves | kinematics.py:52-70 | In the script, Beta's guard never fires, so Beta evolves by `move` alone |
| Kinematics.AlphaAboveGuardBand | kinematics.py:43-47 | For up to 4025 steps Alpha stays above the guard band (height > 0.5) |
| Kinematics.ScriptAlphaFalls | kinematics.py:46-70 | After each of the first 4026 iterations, the script's Alpha is exactly Alpha moved that many times |
| Kinematics.ScriptAlphaGuardFires | kinematics.py:47-51 | After 4026 iterations Alpha is within the guard band, so its guard fires on the next pass (tick 4027), and from then on Alpha is at rest |
| Kinematics.ScriptAlphaLands | kinematics.py:43-70 | Alpha's height in the loop matches the closed form for the first 4026 iterations; its guard fires first on the pass after 4026 iterations (tick 4027); Alpha rests after that |
| Kinematics.ScriptBetaEndsBelowGround | kinematics.py:44-70 | After 4999 iterations Beta is still "up" with acceleration −g, below the ground |
| Kinematics.BetaGuardFreezesAlpha | kinematics.py:52-56 | Once Beta's guard fires with Alpha in the air, it fires on every later iteration, and Alpha keeps its height for ever |
| Kinematics.BetaGuardFreezesAlphaExample | kinematics.py:52-56 | Concretely, Alpha at height 40 stays at 40 once Beta (accelerating at +g) is at height 0.2 |
| Kinematics.MoveTurningAtApex | kinematics.py:25-30 | Corrected turn: an "up" body turns when its velocity reaches or crosses 0, so a body still going up always has positive velocity; it agrees with `move` otherwise |
| Kinematics.DriverStepPerBody | kinematics.py:52-56 | Corrected guard: Beta's guard stops Beta (its own acceleration included) and leaves Alpha to its own guard |
| Kinematics.PerBodyGuardReleasesAlpha | kinematics.py:52-70 | With the corrected guard, Beta's guard does not fire again, Beta stays at rest and Alpha moves on |
| Kinematics.Suvat.constructor | kinematics.py:10-18 | A body holds exactly the seven given values |
| Kinematics.Suvat.Move | kinematics.py:20-37 | `move` changes the body to `MoveState` of its old state and reports `MoveStatusOf` it |
| Kinematics.DriverTick | kinematics.py:47-70 | One loop iteration on the two objects is `DriverStep` of their states; the disabled print branch never sets `info_output` |
| Kinematics.RunScript | kinematics.py:43-70 | The script leaves Alpha and Beta in the state `DriverRun` gives after 4999 iterations, and `info_output` is still false |

## Left out

- Drawing is not modelled: `draw_frame`, the `_draw_*` primitives, `_to_world`
  and the other local-coordinate helpers, the sine/cosine limb and tail offsets,
  and the hex-ring precompute. A figure is only its pose and its animation state.
- Screen and timer plumbing is not modelled: `screen.update`, `screen.ontimer`
  rescheduling, `mainloop`, `start_frame_loop`, `sleep_nonblocking` and
  `turtle.done`. One tick is one call of `Scheduler.Tick`, and the self-rescheduling
  timer is not modelled.
- TurtleLib.Scheduler.Tick: the figure states it promises are those after the
  figure loop, before the callbacks run. A callback that moves a figure is not
  reflected; in the demo, `on_frame` rewrites both figures' position and velocity
  later in the same tick (main.py:262, 48-49, 71-72). The same holds for
  `EnsureTicker`, `RegisterInstance`, `StartAnimation` and `DrawTurtle`, which may
  run a tick.
- What a frame callback does is not modelled. Callbacks are opaque identities,
  and a tick records each invocation as an event in its trace. The demo's own
  callback is `Playback.PlaybackState.OnFrame`, which is modelled on its own.
- The `hasattr(inst, "_frame_step")` test is always true here, because only
  figures are ever registered.
- `draw_ground` and the window-size queries in `fit_world_to_height` are not
  modelled. The window size is a parameter of `FitWorld`, and setting the world
  coordinates is not modelled. `FitWorld` takes every argument explicitly: the
  defaults `x_center=0.0` and `margin_frac=0.1` (TurtleLib.py:272) are the
  constants `TurtleLib.DefaultXCenter` and `TurtleLib.DefaultMarginFrac`, so the
  demo's call (main.py:115) is `FitWorld(w, h, 0.0, 80.0, DefaultXCenter, 0.15)`.
- The Tk widgets are not modelled: `setup_controls`, the pause button's text,
  the `-topmost` attribute, and the label text and label figure in
  `update_label`. Only the relative-height values passed to the labels are kept.
- Playback.PlaybackState.OnFrame: moving the scrubber widget (`time_scrubber.set`) is
  not modelled, and neither is the call of `on_scrub` that the widget makes in
  response, nor when it makes it. The guard only blocks that call if the widget
  makes it before `on_frame` lowers the flag. A widget that makes it later, from
  the redraw in `screen.update()`, reaches `OnScrub`'s active branch. That call
  sets the simulation time to the slider's value, which lies on its 0.01 grid.
  The model does not capture this reset.
- `MAX_TIME` involves a square root. It is a parameter, with its relation to
  the landing times stated in `MotionModel.BothLandedAtMaxTime`. `G` is a
  parameter of the playback (positive) and the constant 9.81 in the integrator.
- IEEE-754 floating point is not modelled: all arithmetic is on reals, and exact
  equality tests are real equality. Over reals, the integrator's `final_velo ==
  0` test never holds for Beta (see "## Findings"). Python's `round(x, 2)` in
  the disabled print branch is modelled as round-half-even of x·100 over reals.
- The `print` calls of the disabled branch in kinematics.py are not modelled.
  Their condition includes `and False`, so they never run.
- quick_start.py is not part of this model; it is demo wiring with no logic of
  its own.

## Findings

| source | as written | input that shows it | evidently intended | confidence | as-written member | corrected member |
|---|---|---|---|---|---|---|
| kinematics.py:27 | The climb turns into a descent only when the new velocity is exactly 0 | Beta as scripted (`suvat(20, -1*g, 0, 0, 0, 0, "up")`): its velocity after k steps is 20 − 0.00981·k, and 981·k = 2000000 has no integer solution, so over reals it never turns and after 4999 iterations is still in its "up" phase at height ≈ −22.6 | Turn when the velocity reaches or crosses 0 | not executed (over reals; floating-point rounding is not modelled) | Kinematics.ScriptBetaEndsBelowGround | Kinematics.MoveTurningAtApex |
| kinematics.py:55 | Beta's ground guard writes `Alpha.acceleration = 0` | Alpha falling at height 40 with acceleration g, Beta at height 0.2 with acceleration g: Beta's guard fires on every later iteration and Alpha stays at height 40 for ever | `Beta.acceleration = 0`, stopping Beta and leaving Alpha to fall | not executed | Kinematics.BetaGuardFreezesAlpha | Kinematics.DriverStepPerBody |
