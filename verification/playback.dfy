/** The demo's playback: a controller per body that keeps a figure in sync with
    its motion model, and the shared playback state (simulation time, rate, pause,
    the scrubber guard) with the handlers that change it. `G` and `MAX_TIME` are
    parameters fixed at start-up. */
module Playback {
  import opened Wrappers
  import opened MotionModel
  import TurtleLib

  /** `TurtleMotionController`: keeps one figure synced to an analytic model. */
  class Controller {
    const body: TurtleLib.Turtle
    const xPosition: real
    /** The motion model; any function at all, even one giving negative heights. */
    const stateFunc: real -> Motion
    const initialHeight: real

    var currentTime: real
    var currentHeight: real
    var currentVelocity: real
    var totalDisplacement: real

    /** Time is never negative and the displacement is measured from the start. */
    ghost predicate Valid()
      reads this
    {
      currentTime >= 0.0 && totalDisplacement == currentHeight - initialHeight
    }

    /** The state that the last `SetTime` leaves: on or above the ground, at rest
        when on the ground, and the figure at that pose with that velocity. */
    ghost predicate Synced()
      reads this, body
    {
      && currentHeight >= 0.0
      && (currentHeight == 0.0 ==> currentVelocity == 0.0)
      && body.pos == TurtleLib.Vec(xPosition, currentHeight)
      && body.velocity == TurtleLib.Vec(0.0, currentVelocity)
    }

    constructor(body: TurtleLib.Turtle, xPosition: real, stateFunc: real -> Motion, initialHeight: real)
      ensures Valid()
      ensures this.body == body && this.xPosition == xPosition
      ensures this.stateFunc == stateFunc && this.initialHeight == initialHeight
      ensures currentTime == 0.0 && currentHeight == initialHeight
      ensures currentVelocity == 0.0 && totalDisplacement == 0.0
    {
      this.body := body;
      this.xPosition := xPosition;
      this.stateFunc := stateFunc;
      this.initialHeight := initialHeight;
      currentTime := 0.0;
      currentHeight := initialHeight;
      currentVelocity := 0.0;
      totalDisplacement := 0.0;
    }

    /** `set_time`: clamps the time at 0, evaluates the model, stops at the ground,
        and moves the figure there with that vertical velocity. */
    method SetTime(timeValue: real)
      modifies this, body
      ensures Valid() && Synced()
      ensures currentTime == Max(0.0, timeValue)
      ensures Motion(currentHeight, currentVelocity) == GroundClamp(stateFunc(Max(0.0, timeValue)))
      ensures body.State() == old(body.State()).(pos := body.pos, velocity := body.velocity)
    {
      var clampedTime := Max(0.0, timeValue);
      var m := stateFunc(clampedTime);
      var height, velocity := m.height, m.velocity;
      if height <= 0.0 {
        height := 0.0;
        velocity := 0.0;
      }
      currentTime := clampedTime;
      currentHeight := height;
      currentVelocity := velocity;
      totalDisplacement := currentHeight - initialHeight;
      body.SetVelocity(0.0, currentVelocity);
      SetPose(currentHeight);
    }

    /** `step`: `set_time` at the current time plus `dt`. */
    method Step(dt: real)
      modifies this, body
      ensures Valid() && Synced()
      ensures currentTime == Max(0.0, old(currentTime) + dt)
      ensures Motion(currentHeight, currentVelocity) == GroundClamp(stateFunc(Max(0.0, old(currentTime) + dt)))
      ensures body.State() == old(body.State()).(pos := body.pos, velocity := body.velocity)
    {
      SetTime(currentTime + dt);
    }

    /** `get_height`: the height, which is the start height plus the displacement. */
    function GetHeight(): (h: real)
      reads this
      requires Valid()
      ensures h == initialHeight + totalDisplacement
    {
      currentHeight
    }

    /** `_set_pose`: puts the figure at this controller's column and `height`. */
    method SetPose(height: real)
      modifies body
      ensures body.State() == old(body.State()).(pos := TurtleLib.Vec(xPosition, height))
    {
      body.pos := TurtleLib.Vec(xPosition, height);
    }
  }

  /** The label values handed to the two controllers: each body's height
      relative to the other's. */
  datatype Labels = Labels(alpha: real, beta: real)

  /** The playback globals of the demo and its two controllers. */
  class PlaybackState {
    const g: real
    const maxTime: real
    const alpha: Controller
    const beta: Controller
    /** Whether the time scrubber widget exists. */
    const hasScrubber: bool

    var playbackRate: real
    var simulationTime: real
    var paused: bool
    var updatingScrubber: bool

    ghost predicate Valid()
      reads this, alpha, beta
    {
      && g > 0.0 && maxTime >= 0.0
      && alpha != beta && alpha.body != beta.body
      && alpha.Valid() && beta.Valid()
      && 0.0 <= simulationTime <= maxTime
    }

    /** Start-up of the demo: two controllers over the two figures, rate 1, not
        paused, and the simulation shown at time 0. */
    constructor(g: real, maxTime: real, a: TurtleLib.Turtle, b: TurtleLib.Turtle, hasScrubber: bool)
      requires g > 0.0 && maxTime >= 0.0 && a != b
      modifies a, b
      ensures Valid() && fresh(alpha) && fresh(beta)
      ensures this.g == g && this.maxTime == maxTime && this.hasScrubber == hasScrubber
      ensures alpha.body == a && beta.body == b
      ensures a.State() == old(a.State()).(pos := a.pos, velocity := a.velocity)
      ensures b.State() == old(b.State()).(pos := b.pos, velocity := b.velocity)
      ensures alpha.xPosition == -10.0 && beta.xPosition == 0.0
      ensures alpha.initialHeight == AlphaInitialHeight && beta.initialHeight == BetaInitialHeight
      ensures forall t :: alpha.stateFunc(t) == AlphaState(g, t)
      ensures forall t :: beta.stateFunc(t) == BetaState(g, t)
      ensures playbackRate == 1.0 && simulationTime == 0.0 && !paused && !updatingScrubber
      ensures alpha.currentTime == 0.0 && beta.currentTime == 0.0
      ensures alpha.currentHeight == AlphaInitialHeight && alpha.currentVelocity == AlphaInitialVelocity
      ensures beta.currentHeight == BetaInitialHeight && beta.currentVelocity == 0.0
      ensures alpha.Synced() && beta.Synced()
    {
      this.g := g;
      this.maxTime := maxTime;
      this.hasScrubber := hasScrubber;
      alpha := new Controller(a, -10.0, t => AlphaState(g, t), AlphaInitialHeight);
      beta := new Controller(b, 0.0, t => BetaState(g, t), BetaInitialHeight);
      playbackRate := 1.0;
      simulationTime := 0.0;
      paused := false;
      updatingScrubber := false;
      new;
      var _ := UpdateSimulation(simulationTime);
      BetaStartsAtRest(g);
    }

    /** `update_simulation`: clamps the time, stores it, sets both controllers to
        it and passes each label the height relative to the other body. */
    method UpdateSimulation(timeValue: real) returns (labels: Labels)
      requires Valid()
      modifies this`simulationTime, alpha, beta, alpha.body, beta.body
      ensures Valid() && alpha.Synced() && beta.Synced()
      ensures simulationTime == ClampTime(maxTime, timeValue)
      ensures alpha.currentTime == simulationTime && beta.currentTime == simulationTime
      ensures Motion(alpha.currentHeight, alpha.currentVelocity) == GroundClamp(alpha.stateFunc(simulationTime))
      ensures Motion(beta.currentHeight, beta.currentVelocity) == GroundClamp(beta.stateFunc(simulationTime))
      ensures labels.alpha == alpha.currentHeight - beta.currentHeight
      ensures labels.beta == -labels.alpha
      ensures alpha.body.State() == old(alpha.body.State()).(pos := alpha.body.pos, velocity := alpha.body.velocity)
      ensures beta.body.State() == old(beta.body.State()).(pos := beta.body.pos, velocity := beta.body.velocity)
    {
      var clamped := ClampTime(maxTime, timeValue);
      simulationTime := clamped;
      alpha.SetTime(clamped);
      beta.SetTime(clamped);
      var relative := alpha.GetHeight() - beta.GetHeight();
      labels := Labels(relative, -relative);
    }

    /** `set_playback_rate`: a value that does not convert to a number (`None`)
        falls back to 1.0. */
    method SetPlaybackRate(value: Option<real>)
      modifies this`playbackRate
      ensures playbackRate == value.GetOr(1.0)
    {
      match value
      case Some(rate) => playbackRate := rate;
      case None => playbackRate := 1.0;
    }

    /** `toggle_pause`; two toggles restore the flag. */
    method TogglePause()
      modifies this`paused
      ensures paused == !old(paused)
    {
      paused := !paused;
    }

    /** `on_scrub`: ignored while the scrubber is being set programmatically or
        when the value does not convert to a number; otherwise jumps to the
        clamped time. */
    method OnScrub(value: Option<real>) returns (labels: Option<Labels>)
      requires Valid()
      modifies this`simulationTime, alpha, beta, alpha.body, beta.body
      ensures Valid()
      ensures old(updatingScrubber) || value.None? ==>
                labels.None? && simulationTime == old(simulationTime)
                && unchanged(alpha, beta, alpha.body, beta.body)
      ensures !old(updatingScrubber) && value.Some? ==>
                && labels.Some?
                && simulationTime == ClampTime(maxTime, value.value)
                && alpha.currentTime == simulationTime && beta.currentTime == simulationTime
                && Motion(alpha.currentHeight, alpha.currentVelocity) == GroundClamp(alpha.stateFunc(simulationTime))
                && Motion(beta.currentHeight, beta.currentVelocity) == GroundClamp(beta.stateFunc(simulationTime))
                && alpha.Synced() && beta.Synced()
                && labels.value.alpha == alpha.currentHeight - beta.currentHeight
                && labels.value.beta == -labels.value.alpha
      ensures alpha.body.State() == old(alpha.body.State()).(pos := alpha.body.pos, velocity := alpha.body.velocity)
      ensures beta.body.State() == old(beta.body.State()).(pos := beta.body.pos, velocity := beta.body.velocity)
    {
      if updatingScrubber {
        return None;
      }
      match value {
        case None =>
          return None;
        case Some(v) =>
          simulationTime := ClampTime(maxTime, v);
          var l := UpdateSimulation(simulationTime);
          return Some(l);
      }
    }

    /** `on_frame`, the per-frame callback: unless paused or at rate 0, advances
        the simulation time by rate·dt within [0, MAX_TIME] (raising the scrubber
        guard while the scrubber is moved), then updates both controllers. */
    method OnFrame(dt: real) returns (labels: Labels)
      requires Valid()
      modifies this`simulationTime, this`updatingScrubber, alpha, beta, alpha.body, beta.body
      ensures Valid() && alpha.Synced() && beta.Synced()
      ensures old(paused) || playbackRate == 0.0 ==> simulationTime == old(simulationTime)
      ensures !old(paused) && playbackRate != 0.0 ==>
                simulationTime == ClampTime(maxTime, old(simulationTime) + playbackRate * dt)
      ensures alpha.currentTime == simulationTime && beta.currentTime == simulationTime
      ensures Motion(alpha.currentHeight, alpha.currentVelocity) == GroundClamp(alpha.stateFunc(simulationTime))
      ensures Motion(beta.currentHeight, beta.currentVelocity) == GroundClamp(beta.stateFunc(simulationTime))
      ensures alpha.body.State() == old(alpha.body.State()).(pos := alpha.body.pos, velocity := alpha.body.velocity)
      ensures beta.body.State() == old(beta.body.State()).(pos := beta.body.pos, velocity := beta.body.velocity)
      ensures updatingScrubber ==
                (old(updatingScrubber) && (!hasScrubber || simulationTime == old(simulationTime)))
      ensures labels.alpha == alpha.currentHeight - beta.currentHeight
      ensures labels.beta == -labels.alpha
    {
      if !paused && playbackRate != 0.0 {
        var newTime := ClampTime(maxTime, simulationTime + playbackRate * dt);
        if newTime != simulationTime {
          simulationTime := newTime;
          if hasScrubber {
            updatingScrubber := true;
            updatingScrubber := false;
          }
        }
      }
      labels := UpdateSimulation(simulationTime);
    }
  }
}
