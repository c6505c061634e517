/** The fixed-micro-step SUVAT integrator: a body that advances by 1 ms per call
    in an "up" or "down" phase, and the script that drives two such bodies,
    Alpha (dropped from 80) and Beta (thrown up at 20), for 4999 ticks with a
    ground guard for each. */
module Kinematics {
  import MotionModel

  /** `g`: the acceleration due to gravity. */
  const G: real := 9.81
  /** The micro-step of one `move`, in seconds. */
  const MicroStep: real := 0.001
  /** The driver loop runs `for tick in range(1, 5000)`: 4999 iterations. */
  const Ticks: nat := 4999

  // ---------------------------------------------------------------------------
  // Rounding

  /** Python's `round(x)` on a real: the nearest integer, ties to the even one. */
  function RoundHalfEven(x: real): (r: int)
    ensures -0.5 <= x - r as real <= 0.5
    ensures x - r as real == 0.5 || x - r as real == -0.5 ==> r % 2 == 0
  {
    var f := x.Floor;
    var frac := x - f as real;
    if frac < 0.5 then f
    else if frac > 0.5 then f + 1
    else if f % 2 == 0 then f
    else f + 1
  }

  /** `round(h, 0) == 0` holds exactly for heights within half a unit of 0. */
  lemma RoundsToZeroIff(x: real)
    ensures RoundHalfEven(x) == 0 <==> -0.5 <= x <= 0.5
  {
    var r := RoundHalfEven(x);
    if -0.5 <= x <= 0.5 {
      assert -1 <= r <= 1;
    }
  }

  /** Python's `round(x, 2)`, over the reals. */
  function RoundTo2(x: real): real {
    RoundHalfEven(x * 100.0) as real / 100.0
  }

  // ---------------------------------------------------------------------------
  // One body

  /** The fields of a `suvat` body. */
  datatype SuvatState = SuvatState(iniVelo: real, acceleration: real, displacement: real,
                                   finalVelo: real, time: real, height: real, direction: string)

  /** What `move` returns: nothing, or `"Error"` for an unknown direction. */
  datatype MoveStatus = Moved | Error

  /** `move` on values: one micro-step of constant acceleration. An "up" body
      climbs by the displacement and turns "down" (negating its acceleration) only
      when its new velocity is exactly 0; a "down" body descends by it; any other
      direction keeps height and direction but the velocities still advance. */
  function MoveState(s: SuvatState): (r: SuvatState)
    ensures r.finalVelo == s.iniVelo + s.acceleration * MicroStep && r.iniVelo == r.finalVelo
    ensures r.displacement == (s.iniVelo + r.finalVelo) / 2.0 * MicroStep
    ensures s.direction == "up" ==> r.height == s.height + r.displacement
    ensures s.direction == "down" ==> r.height == s.height - r.displacement
    ensures s.direction != "up" && s.direction != "down" ==> r.height == s.height
    ensures r.direction != s.direction <==> s.direction == "up" && r.finalVelo == 0.0
    ensures r.direction != s.direction ==> r.direction == "down" && r.acceleration == -s.acceleration
    ensures r.direction == s.direction ==> r.acceleration == s.acceleration
    ensures r.time == s.time
  {
    var displacement := s.iniVelo * MicroStep + 0.5 * s.acceleration * MicroStep * MicroStep;
    var finalVelo := s.iniVelo + s.acceleration * MicroStep;
    var stepped := s.(displacement := displacement, finalVelo := finalVelo, iniVelo := finalVelo);
    if s.direction == "up" then
      var climbed := stepped.(height := s.height + displacement);
      if finalVelo == 0.0 then climbed.(direction := "down", acceleration := s.acceleration * -1.0)
      else climbed
    else if s.direction == "down" then stepped.(height := s.height - displacement)
    else stepped
  }

  /** The return value of `move`. */
  function MoveStatusOf(s: SuvatState): (r: MoveStatus)
    ensures r == Error <==> MoveState(s).height == s.height && s.direction != "up" && s.direction != "down"
  {
    if s.direction == "up" || s.direction == "down" then Moved else Error
  }

  /** The micro-step obeys the SUVAT relation v² = u² + 2·a·s. */
  lemma MoveKeepsSuvatRelation(s: SuvatState)
    ensures var r := MoveState(s);
            r.finalVelo * r.finalVelo == s.iniVelo * s.iniVelo + 2.0 * s.acceleration * r.displacement
  {
    var r := MoveState(s);
    var u, a, h := s.iniVelo, s.acceleration, MicroStep;
    assert r.finalVelo == u + a * h;
    assert r.displacement == u * h + 0.5 * a * h * h;
    assert (u + a * h) * (u + a * h) == u * u + 2.0 * a * (u * h + 0.5 * a * h * h);
  }

  /** The rest state that the ground guard leaves: no velocity and no acceleration. */
  predicate AtRest(s: SuvatState) {
    s.height == 0.0 && s.iniVelo == 0.0 && s.finalVelo == 0.0 && s.acceleration == 0.0
  }

  /** A body with no velocity and no acceleration keeps its height and stays
      still; in particular the rest state is kept by `move`. */
  lemma MoveAtRest(s: SuvatState)
    requires s.iniVelo == 0.0 && s.acceleration == 0.0
    ensures MoveState(s).height == s.height && MoveState(s).acceleration == 0.0
    ensures MoveState(s).iniVelo == 0.0 && MoveState(s).finalVelo == 0.0
    ensures AtRest(s) ==> AtRest(MoveState(s))
  {
  }

  /** `n` successive calls of `move`. */
  function MoveN(s: SuvatState, n: nat): SuvatState {
    if n == 0 then s else MoveState(MoveN(s, n - 1))
  }

  /** Velocity u + a·t after time `t` of constant acceleration. */
  function VelocityAt(u: real, a: real, t: real): real {
    u + a * t
  }

  /** Distance u·t + ½·a·t² covered in time `t` of constant acceleration. */
  function DistanceAt(u: real, a: real, t: real): real {
    u * t + 0.5 * a * t * t
  }

  /** One micro-step keeps a body on the closed-form trajectory of its start
      (initial velocity `u`, acceleration `a`, start height `h0`, climbing when
      `sign` is 1 and descending when it is −1). */
  lemma TrajectoryStep(q: SuvatState, u: real, a: real, h0: real, sign: real, t: real)
    requires sign == 1.0 || sign == -1.0
    requires q.direction == (if sign == 1.0 then "up" else "down")
    requires q.acceleration == a && q.iniVelo == VelocityAt(u, a, t)
    requires q.height == h0 + sign * DistanceAt(u, a, t)
    ensures MoveState(q).iniVelo == VelocityAt(u, a, t + MicroStep)
    ensures MoveState(q).height == h0 + sign * DistanceAt(u, a, t + MicroStep)
  {
    var h := MicroStep;
    var r := MoveState(q);
    assert r.displacement == (u + a * t) * h + 0.5 * a * h * h by {
      assert r.displacement == (q.iniVelo + (q.iniVelo + a * h)) / 2.0 * h;
    }
    assert r.height == q.height + sign * r.displacement;
    assert u * t + 0.5 * a * t * t + ((u + a * t) * h + 0.5 * a * h * h)
           == u * (t + h) + 0.5 * a * (t + h) * (t + h);
  }

  /** Descending never turns back, and over `n` micro-steps of elapsed time
      t = n·0.001 the body follows the closed form exactly. */
  lemma {:induction false} DescentClosedForm(s: SuvatState, n: nat)
    requires s.direction == "down"
    ensures MoveN(s, n).direction == "down" && MoveN(s, n).acceleration == s.acceleration
    ensures MoveN(s, n).iniVelo == VelocityAt(s.iniVelo, s.acceleration, n as real * MicroStep)
    ensures MoveN(s, n).height == s.height - DistanceAt(s.iniVelo, s.acceleration, n as real * MicroStep)
  {
    if n > 0 {
      var t := (n - 1) as real * MicroStep;
      DescentClosedForm(s, n - 1);
      TrajectoryStep(MoveN(s, n - 1), s.iniVelo, s.acceleration, s.height, -1.0, t);
      assert t + MicroStep == n as real * MicroStep;
    }
  }

  // ---------------------------------------------------------------------------
  // The script's two bodies

  /** `Alpha = suvat(0, g, 0, 0, 0, 80, "down")`. */
  const AlphaStart: SuvatState := SuvatState(0.0, G, 0.0, 0.0, 0.0, 80.0, "down")
  /** `Beta = suvat(20, -1*g, 0, 0, 0, 0, "up")`. */
  const BetaStart: SuvatState := SuvatState(20.0, -1.0 * G, 0.0, 0.0, 0.0, 0.0, "up")

  /** The micro-step and closed-form formulations agree for Alpha: after `n`
      moves its height is exactly the analytic height at t = n·0.001. */
  lemma AlphaMatchesClosedForm(n: nat)
    ensures MoveN(AlphaStart, n).height
            == MotionModel.RawHeight(MotionModel.AlphaInitialHeight, MotionModel.AlphaInitialVelocity,
                                     G, n as real * MicroStep)
  {
    DescentClosedForm(AlphaStart, n);
  }

  /** Beta's velocity after `k` micro-steps, 20 − 0.00981·k, is never exactly 0:
      981·k = 2000000 has no integer solution. */
  lemma BetaVelocityNeverZero(k: nat)
    ensures VelocityAt(20.0, -1.0 * G, k as real * MicroStep) != 0.0
  {
    assert 981 * k != 2000000 by {
      if k <= 2038 {
        assert 981 * k <= 1999278;
      } else {
        assert 981 * k >= 2000259;
      }
    }
    assert (20.0 + -1.0 * G * (k as real * MicroStep)) * 100000.0 == (2000000 - 981 * k) as real;
  }

  /** Beta as written: it stays "up" with acceleration −g for every number of
      moves, its velocity passing through 0 without ever equalling it, and its
      height is the analytic 20·t − ½·g·t² (which goes below ground after t = 40/g). */
  lemma {:induction false} BetaNeverTurns(n: nat)
    ensures MoveN(BetaStart, n).direction == "up" && MoveN(BetaStart, n).acceleration == -1.0 * G
    ensures MoveN(BetaStart, n).iniVelo == VelocityAt(20.0, -1.0 * G, n as real * MicroStep)
    ensures MoveN(BetaStart, n).height == DistanceAt(20.0, -1.0 * G, n as real * MicroStep)
  {
    if n > 0 {
      var t := (n - 1) as real * MicroStep;
      BetaNeverTurns(n - 1);
      BetaVelocityNeverZero(n);
      TrajectoryStep(MoveN(BetaStart, n - 1), 20.0, -1.0 * G, 0.0, 1.0, t);
      assert t + MicroStep == n as real * MicroStep;
    }
  }

  // ---------------------------------------------------------------------------
  // The driver loop

  /** The two bodies of the script. */
  datatype Bodies = Bodies(alpha: SuvatState, beta: SuvatState)

  const ScriptStart: Bodies := Bodies(AlphaStart, BetaStart)

  /** The ground guard's test: `round(h, 0) == 0 and acceleration == g`. */
  predicate GuardFires(s: SuvatState) {
    RoundHalfEven(s.height) == 0 && s.acceleration == G
  }

  /** Alpha's guard: stops Alpha at the ground. */
  function AlphaGuarded(a: SuvatState): (r: SuvatState)
    ensures GuardFires(a) ==> AtRest(r) && r.direction == a.direction
    ensures !GuardFires(a) ==> r == a
  {
    if GuardFires(a) then a.(height := 0.0, iniVelo := 0.0, acceleration := 0.0, finalVelo := 0.0)
    else a
  }

  /** One iteration of the driver loop, as written: Alpha's guard; then Beta's
      guard, which zeroes Beta's height and velocities but writes 0 into ALPHA's
      acceleration, and in which case nobody moves; otherwise (the printing
      branch being disabled) both bodies move. */
  function DriverStep(p: Bodies): (r: Bodies)
    ensures GuardFires(p.beta) ==>
              && r.alpha == AlphaGuarded(p.alpha).(acceleration := 0.0)
              && r.beta == p.beta.(height := 0.0, iniVelo := 0.0, finalVelo := 0.0)
    ensures !GuardFires(p.beta) ==> r == Bodies(MoveState(AlphaGuarded(p.alpha)), MoveState(p.beta))
    ensures GuardFires(p.alpha) ==> AtRest(r.alpha)
    ensures GuardFires(p.beta) ==> r.beta.acceleration == G && r.alpha.height == AlphaGuarded(p.alpha).height
  {
    var alpha := AlphaGuarded(p.alpha);
    if GuardFires(p.beta) then
      Bodies(alpha.(acceleration := 0.0), p.beta.(height := 0.0, iniVelo := 0.0, finalVelo := 0.0))
    else
      Bodies(MoveState(alpha), MoveState(p.beta))
  }

  /** `n` iterations of the driver loop. */
  function DriverRun(p: Bodies, n: nat): Bodies {
    if n == 0 then p else DriverStep(DriverRun(p, n - 1))
  }

  /** Once Alpha is at rest it stays at rest for the rest of the run. */
  lemma {:induction false} AlphaRestIsFinal(p: Bodies, m: nat, n: nat)
    requires m <= n && AtRest(DriverRun(p, m).alpha)
    ensures AtRest(DriverRun(p, n).alpha)
  {
    if m < n {
      AlphaRestIsFinal(p, m, n - 1);
      var q := DriverRun(p, n - 1);
      assert !GuardFires(q.alpha);
      MoveAtRest(q.alpha);
    }
  }

  /** In the script, Beta's guard never fires (its acceleration stays −g), so Beta
      evolves by `move` alone for the whole run. */
  lemma {:induction false} ScriptBetaOnlyMoves(n: nat)
    ensures DriverRun(ScriptStart, n).beta == MoveN(BetaStart, n)
    ensures !GuardFires(DriverRun(ScriptStart, n).beta)
  {
    if n > 0 {
      ScriptBetaOnlyMoves(n - 1);
    }
    BetaNeverTurns(n);
  }

  /** Alpha's height after `n` moves stays above half a unit for n ≤ 4025. */
  lemma AlphaAboveGuardBand(n: nat)
    requires n <= 4025
    ensures MoveN(AlphaStart, n).height > 0.5
  {
    AlphaMatchesClosedForm(n);
    var t := n as real * MicroStep;
    assert t <= 4.025;
    assert t * t <= 4.025 * 4.025 by {
      assert t >= 0.0;
      assert t * t <= t * 4.025 <= 4.025 * 4.025;
    }
  }

  /** Before its guard, the script's Alpha falls exactly as the analytic model. */
  lemma {:induction false} ScriptAlphaFalls(n: nat)
    requires n <= 4026
    ensures DriverRun(ScriptStart, n).alpha == MoveN(AlphaStart, n)
  {
    if n > 0 {
      ScriptAlphaFalls(n - 1);
      ScriptBetaOnlyMoves(n - 1);
      AlphaAboveGuardBand(n - 1);
      var q := DriverRun(ScriptStart, n - 1);
      RoundsToZeroIff(q.alpha.height);
      assert !GuardFires(q.alpha);
    }
  }

  /** After 4026 iterations (on the pass with `tick == 4027`) the script's Alpha
      is within half a unit of the ground with acceleration g, so its guard fires
      and that pass leaves it at rest. */
  lemma ScriptAlphaGuardFires(m: nat)
    requires m == 4026
    ensures GuardFires(DriverRun(ScriptStart, m).alpha)
    ensures AtRest(DriverRun(ScriptStart, m + 1).alpha)
  {
    ScriptAlphaFalls(m);
    DescentClosedForm(AlphaStart, m);
    var t := m as real * MicroStep;
    assert t == 4.026;
    var q := DriverRun(ScriptStart, m);
    assert q.alpha.height == 80.0 - DistanceAt(0.0, G, t);
    assert DistanceAt(0.0, G, 4.026) == 79.503555780;
    RoundsToZeroIff(q.alpha.height);
  }

  /** The script's Alpha lands: for the first 4026 iterations its height is the
      analytic one, through 4025 iterations it stays above the guard band, after
      4026 iterations (tick 4027) the guard fires, and from then on Alpha is at
      rest on the ground. */
  lemma ScriptAlphaLands(n: nat)
    ensures n <= 4026 ==>
              DriverRun(ScriptStart, n).alpha.height
              == MotionModel.RawHeight(MotionModel.AlphaInitialHeight, MotionModel.AlphaInitialVelocity,
                                       G, n as real * MicroStep)
    ensures n <= 4025 ==> !GuardFires(DriverRun(ScriptStart, n).alpha)
    ensures n == 4026 ==> GuardFires(DriverRun(ScriptStart, n).alpha)
    ensures n > 4026 ==> AtRest(DriverRun(ScriptStart, n).alpha)
  {
    if n <= 4026 {
      ScriptAlphaFalls(n);
      AlphaMatchesClosedForm(n);
      if n <= 4025 {
        AlphaAboveGuardBand(n);
        RoundsToZeroIff(DriverRun(ScriptStart, n).alpha.height);
      } else {
        ScriptAlphaGuardFires(n);
      }
    } else {
      var m: nat := n - (n - 4026);
      ScriptAlphaGuardFires(m);
      AlphaRestIsFinal(ScriptStart, m + 1, n);
    }
  }

  /** As written, the script leaves Beta below the ground: after the 4999
      iterations Beta is still "up" with acceleration −g and negative height. */
  lemma ScriptBetaEndsBelowGround()
    ensures DriverRun(ScriptStart, Ticks).beta.direction == "up"
    ensures DriverRun(ScriptStart, Ticks).beta.acceleration == -1.0 * G
    ensures DriverRun(ScriptStart, Ticks).beta.height < 0.0
  {
    ScriptBetaOnlyMoves(Ticks);
    BetaNeverTurns(Ticks);
  }

  /** As written, once Beta's guard fires while Alpha is still in the air, Alpha
      never moves again: its acceleration is zeroed instead of Beta's, so Beta's
      guard fires on every later iteration and the moving branch is never taken. */
  lemma {:induction false} BetaGuardFreezesAlpha(p: Bodies, n: nat)
    requires GuardFires(p.beta) && !GuardFires(p.alpha)
    requires n >= 1
    ensures DriverRun(p, n).alpha == p.alpha.(acceleration := 0.0)
    ensures DriverRun(p, n).beta == p.beta.(height := 0.0, iniVelo := 0.0, finalVelo := 0.0)
  {
    if n > 1 {
      BetaGuardFreezesAlpha(p, n - 1);
      var q := DriverRun(p, n - 1);
      RoundsToZeroIff(0.0);
      assert GuardFires(q.beta);
      assert !GuardFires(q.alpha);
    }
  }

  /** A concrete instance: Alpha falling at height 40, Beta just above the ground
      after turning (acceleration +g). */
  lemma BetaGuardFreezesAlphaExample(n: nat)
    requires n >= 1
    ensures var p := Bodies(SuvatState(20.0, G, 0.02, 20.0, 0.0, 40.0, "down"),
                            SuvatState(1.0, G, 0.001, 1.0, 0.0, 0.2, "down"));
            DriverRun(p, n).alpha.height == 40.0 && DriverRun(p, n).alpha.acceleration == 0.0
  {
    var p := Bodies(SuvatState(20.0, G, 0.02, 20.0, 0.0, 40.0, "down"),
                    SuvatState(1.0, G, 0.001, 1.0, 0.0, 0.2, "down"));
    RoundsToZeroIff(0.2);
    RoundsToZeroIff(40.0);
    BetaGuardFreezesAlpha(p, n);
  }

  // ---------------------------------------------------------------------------
  // Corrected definitions

  /** `move` with the turn taken when the rising velocity reaches OR crosses 0,
      with the descent starting from the speed reached (the "down" phase counts
      speed downwards). It agrees with `move` whenever that one reaches exactly 0. */
  function MoveTurningAtApex(s: SuvatState): (r: SuvatState)
    ensures s.direction == "up" && r.direction == "up" ==> r.finalVelo > 0.0
    ensures s.direction == "up" && s.iniVelo + s.acceleration * MicroStep <= 0.0 ==>
              r.direction == "down" && r.acceleration == -s.acceleration && r.iniVelo >= 0.0
    ensures s.direction != "up" || s.iniVelo + s.acceleration * MicroStep >= 0.0 ==> r == MoveState(s)
  {
    var m := MoveState(s);
    if s.direction == "up" && m.finalVelo < 0.0 then
      m.(direction := "down", acceleration := s.acceleration * -1.0,
         iniVelo := -m.finalVelo, finalVelo := -m.finalVelo)
    else m
  }

  /** One iteration of the driver loop with Beta's guard writing Beta's own
      acceleration. */
  function DriverStepPerBody(p: Bodies): (r: Bodies)
    ensures GuardFires(p.beta) ==> r.alpha == AlphaGuarded(p.alpha) && AtRest(r.beta)
    ensures !GuardFires(p.beta) ==> r == DriverStep(p)
  {
    var alpha := AlphaGuarded(p.alpha);
    if GuardFires(p.beta) then
      Bodies(alpha, p.beta.(height := 0.0, iniVelo := 0.0, acceleration := 0.0, finalVelo := 0.0))
    else
      Bodies(MoveState(alpha), MoveState(p.beta))
  }

  /** With the per-body guard, Beta's guard fires once: on the next iteration it
      does not, and Alpha moves on unhindered while Beta stays at rest. */
  lemma PerBodyGuardReleasesAlpha(p: Bodies)
    requires GuardFires(p.beta)
    ensures var q := DriverStepPerBody(p);
            && !GuardFires(q.beta)
            && DriverStepPerBody(q).alpha == MoveState(AlphaGuarded(q.alpha))
            && AtRest(DriverStepPerBody(q).beta)
  {
    var q := DriverStepPerBody(p);
    MoveAtRest(q.beta);
  }

  // ---------------------------------------------------------------------------
  // The objects and the script

  /** `suvat`: a body whose fields `move` updates in place. */
  class Suvat {
    var iniVelo: real
    var acceleration: real
    var displacement: real
    var finalVelo: real
    var time: real
    var height: real
    var direction: string

    function State(): SuvatState
      reads this
    {
      SuvatState(iniVelo, acceleration, displacement, finalVelo, time, height, direction)
    }

    constructor(iniVelo: real, acceleration: real, displacement: real, finalVelo: real,
                time: real, height: real, direction: string)
      ensures State() == SuvatState(iniVelo, acceleration, displacement, finalVelo, time, height, direction)
    {
      this.iniVelo := iniVelo;
      this.acceleration := acceleration;
      this.displacement := displacement;
      this.finalVelo := finalVelo;
      this.time := time;
      this.height := height;
      this.direction := direction;
    }

    /** `move`. */
    method Move() returns (status: MoveStatus)
      modifies this
      ensures State() == MoveState(old(State()))
      ensures status == MoveStatusOf(old(State()))
    {
      displacement := iniVelo * MicroStep + 0.5 * acceleration * MicroStep * MicroStep;
      finalVelo := iniVelo + acceleration * MicroStep;
      iniVelo := finalVelo;
      if direction == "up" {
        height := height + displacement;
        if finalVelo == 0.0 {
          direction := "down";
          acceleration := acceleration * -1.0;
        }
      } else if direction == "down" {
        height := height - displacement;
      } else {
        return Error;
      }
      return Moved;
    }
  }

  /** One iteration of the driver loop on the two objects, as written. The
      printing branch is disabled by its `and False`, so `info_output` is
      never set. */
  method DriverTick(alpha: Suvat, beta: Suvat, infoOutput: bool) returns (infoOutput': bool)
    requires alpha != beta
    modifies alpha, beta
    ensures Bodies(alpha.State(), beta.State()) == DriverStep(Bodies(old(alpha.State()), old(beta.State())))
    ensures infoOutput' == infoOutput
  {
    infoOutput' := infoOutput;
    if RoundHalfEven(alpha.height) == 0 && alpha.acceleration == G {
      alpha.height := 0.0;
      alpha.iniVelo := 0.0;
      alpha.acceleration := 0.0;
      alpha.finalVelo := 0.0;
    }
    if RoundHalfEven(beta.height) == 0 && beta.acceleration == G {
      beta.height := 0.0;
      beta.iniVelo := 0.0;
      alpha.acceleration := 0.0;
      beta.finalVelo := 0.0;
    } else if RoundTo2(alpha.height) == RoundTo2(beta.height) && !infoOutput' && false {
      infoOutput' := true;
    } else {
      var _ := alpha.Move();
      var _ := beta.Move();
    }
  }

  /** The script: creates Alpha and Beta and runs the driver loop for its
      4999 iterations. */
  method RunScript() returns (alpha: Suvat, beta: Suvat, infoOutput: bool)
    ensures !infoOutput
    ensures Bodies(alpha.State(), beta.State()) == DriverRun(ScriptStart, Ticks)
  {
    infoOutput := false;
    alpha := new Suvat(0.0, G, 0.0, 0.0, 0.0, 80.0, "down");
    beta := new Suvat(20.0, -1.0 * G, 0.0, 0.0, 0.0, 0.0, "up");
    for tick := 1 to Ticks + 1
      invariant Bodies(alpha.State(), beta.State()) == DriverRun(ScriptStart, tick - 1)
      invariant !infoOutput
    {
      infoOutput := DriverTick(alpha, beta, infoOutput);
    }
  }
}
