/** The closed-form vertical motion of the two bodies: height and velocity as a
    function of elapsed time under constant acceleration `g`, with time clamped
    at 0 and an inelastic stop at the ground; and the clamp of playback time. */
module MotionModel {

  /** Height and vertical velocity of a body. */
  datatype Motion = Motion(height: real, velocity: real)

  /** The resting state on the ground. */
  const Ground: Motion := Motion(0.0, 0.0)

  const AlphaInitialHeight: real := 80.0
  const AlphaInitialVelocity: real := 0.0
  const BetaInitialHeight: real := 0.0
  const BetaInitialVelocity: real := 20.0

  function Max(a: real, b: real): real {
    if a >= b then a else b
  }

  function Min(a: real, b: real): real {
    if a <= b then a else b
  }

  /** Unclamped height h0 + v0·t − ½·g·t². */
  function RawHeight(h0: real, v0: real, g: real, t: real): real {
    h0 + v0 * t - 0.5 * g * t * t
  }

  /** The inelastic ground stop: a height at or below 0 becomes the resting state. */
  function GroundClamp(m: Motion): (r: Motion)
    ensures r == m || r == Ground
    ensures r.height >= 0.0
    ensures r.height == 0.0 ==> r.velocity == 0.0
    ensures m.height > 0.0 ==> r == m
  {
    if m.height <= 0.0 then Ground else m
  }

  /** `alpha_state`/`beta_state` with their fixed parameters abstracted: negative
      time counts as 0, and the ground stops the body. */
  function StateAt(h0: real, v0: real, g: real, t: real): (r: Motion)
    ensures r.height >= 0.0
    ensures RawHeight(h0, v0, g, Max(0.0, t)) <= 0.0 ==> r == Ground
    ensures RawHeight(h0, v0, g, Max(0.0, t)) > 0.0 ==>
              r == Motion(RawHeight(h0, v0, g, Max(0.0, t)), v0 - g * Max(0.0, t))
  {
    var tc := Max(0.0, t);
    GroundClamp(Motion(RawHeight(h0, v0, g, tc), v0 - g * tc))
  }

  /** `alpha_state`: dropped from 80 at rest; it never rises above its start and
      never moves up. */
  function AlphaState(g: real, t: real): (r: Motion)
    ensures g >= 0.0 ==> 0.0 <= r.height <= AlphaInitialHeight && r.velocity <= 0.0
  {
    var tc := Max(0.0, t);
    assert g >= 0.0 ==> 0.5 * g * tc * tc >= 0.0 by {
      if g >= 0.0 {
        assert tc * tc >= 0.0;
        assert (0.5 * g) * (tc * tc) >= 0.0;
      }
    }
    StateAt(AlphaInitialHeight, AlphaInitialVelocity, g, t)
  }

  /** `beta_state`: thrown up from the ground at 20; it never moves up faster
      than it was thrown. */
  function BetaState(g: real, t: real): (r: Motion)
    ensures g >= 0.0 ==> 0.0 <= r.height && r.velocity <= BetaInitialVelocity
  {
    StateAt(BetaInitialHeight, BetaInitialVelocity, g, t)
  }

  /** Beta never passes the apex height 20²/(2g), reached at time 20/g. */
  lemma BetaApexBound(g: real, t: real)
    requires g > 0.0
    ensures BetaState(g, t).height * g <= 200.0
    ensures BetaState(g, 20.0 / g).height * g == 200.0
  {
    var tc := Max(0.0, t);
    assert 200.0 - RawHeight(BetaInitialHeight, BetaInitialVelocity, g, tc) * g
           == 0.5 * (g * tc - 20.0) * (g * tc - 20.0);
    var apex := 20.0 / g;
    assert g * apex == 20.0;
    assert RawHeight(BetaInitialHeight, BetaInitialVelocity, g, apex) * g
           == 20.0 * (g * apex) - 0.5 * (g * apex) * (g * apex);
  }

  /** Negative time is treated as time 0. */
  lemma NegativeTimeIsStart(h0: real, v0: real, g: real, t: real)
    requires t <= 0.0
    ensures StateAt(h0, v0, g, t) == StateAt(h0, v0, g, 0.0)
  {
  }

  /** Beta starts on the ground, and a height of exactly 0 takes the ground branch,
      so at time 0 it is at rest. */
  lemma BetaStartsAtRest(g: real)
    ensures BetaState(g, 0.0) == Ground
  {
  }

  /** Once a body that starts at or above the ground is on the ground at a positive
      time, it stays there at rest for all later times (the parabola is concave and
      not below ground at 0). */
  lemma {:induction false} GroundIsAbsorbing(h0: real, v0: real, g: real, t: real, t': real)
    requires h0 >= 0.0 && g >= 0.0
    requires 0.0 < t <= t'
    requires StateAt(h0, v0, g, t).height == 0.0
    ensures StateAt(h0, v0, g, t') == Ground
  {
    var h := RawHeight(h0, v0, g, t);
    var h' := RawHeight(h0, v0, g, t');
    assert h <= 0.0;
    assert t' * h - t * h' == h0 * (t' - t) + 0.5 * g * t * t' * (t' - t);
    assert h0 * (t' - t) >= 0.0;
    assert 0.5 * g * t * t' * (t' - t) >= 0.0 by {
      var a := 0.5 * g;
      assert a >= 0.0;
      var b := a * t;
      assert b >= 0.0;
      var c := b * t';
      assert c >= 0.0;
      assert c * (t' - t) >= 0.0;
    }
    assert t * h' <= t' * h <= 0.0;
    assert h' <= 0.0;
  }

  /** Alpha, once landed, stays at rest. */
  lemma AlphaStaysLanded(g: real, t: real, t': real)
    requires g > 0.0 && t <= t'
    requires AlphaState(g, t).height == 0.0
    ensures AlphaState(g, t') == Ground
  {
    if t <= 0.0 {
      assert false;
    } else {
      GroundIsAbsorbing(AlphaInitialHeight, AlphaInitialVelocity, g, t, t');
    }
  }

  /** Beta, once landed after its launch, stays at rest. */
  lemma BetaStaysLanded(g: real, t: real, t': real)
    requires g > 0.0 && 0.0 < t <= t'
    requires BetaState(g, t).height == 0.0
    ensures BetaState(g, t') == Ground
  {
    GroundIsAbsorbing(BetaInitialHeight, BetaInitialVelocity, g, t, t');
  }

  /** The end of the playback range. With `alphaStop` the square root of 2·80/g
      (Alpha's landing time) and 2·20/g Beta's, the larger of the two is a time at
      which both bodies are at rest on the ground. */
  lemma BothLandedAtMaxTime(g: real, alphaStop: real)
    requires g > 0.0
    requires alphaStop >= 0.0 && alphaStop * alphaStop == 2.0 * AlphaInitialHeight / g
    ensures var maxTime := Max(alphaStop, 2.0 * BetaInitialVelocity / g);
            AlphaState(g, maxTime) == Ground && BetaState(g, maxTime) == Ground
  {
    var betaStop := 2.0 * BetaInitialVelocity / g;
    var maxTime := Max(alphaStop, betaStop);
    assert alphaStop > 0.0;
    assert RawHeight(AlphaInitialHeight, AlphaInitialVelocity, g, alphaStop) == 0.0 by {
      assert g * (alphaStop * alphaStop) == 160.0;
    }
    assert AlphaState(g, alphaStop).height == 0.0;
    AlphaStaysLanded(g, alphaStop, maxTime);
    assert RawHeight(BetaInitialHeight, BetaInitialVelocity, g, betaStop) == 0.0 by {
      assert g * betaStop == 40.0;
      assert RawHeight(BetaInitialHeight, BetaInitialVelocity, g, betaStop)
             == betaStop * (20.0 - 0.5 * (g * betaStop));
    }
    assert betaStop > 0.0;
    BetaStaysLanded(g, betaStop, maxTime);
  }

  /** `clamp_time`: max(0, min(MAX_TIME, value)). */
  function ClampTime(maxTime: real, value: real): (r: real)
    ensures 0.0 <= r
    ensures maxTime >= 0.0 ==> r <= maxTime
    ensures 0.0 <= value <= maxTime ==> r == value
    ensures maxTime >= 0.0 && value > maxTime ==> r == maxTime
    ensures value < 0.0 ==> r == 0.0
  {
    Max(0.0, Min(maxTime, value))
  }

  /** Clamping twice is clamping once. */
  lemma ClampTimeIdempotent(maxTime: real, value: real)
    requires maxTime >= 0.0
    ensures ClampTime(maxTime, ClampTime(maxTime, value)) == ClampTime(maxTime, value)
  {
  }
}
