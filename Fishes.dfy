/** The value-level building blocks of a fish (src/Fish.js): its states,
    its named one-shot timers, the per-state target speeds and wiggle
    durations, speed easing, squared distances, the bounded turn step of
    smoothRotation, the animation wave and the room test. The behaviour
    switch is in FishStates and the class itself in FishClass. */
module Fishes {
  import opened Host
  import opened Js
  import opened Misc
  import opened Foods

  /** Fish.states. */
  datatype State = Idling | Following | Resting | Eating | MovingToTarget | Avoiding | Fighting

  /** Fish.rotationSpeed1, 2 and 3. */
  const ROTATION_SPEED_1: real := 0.05
  const ROTATION_SPEED_2: real := 0.1
  const ROTATION_SPEED_3: real := 0.15
  /** The turn rate of a fish steering back into the tank. */
  const RETURN_ROTATION: real := 0.2
  /** The factor by which the drawn wiggle follows the wiggle wave. */
  const WIGGLE_SMOOTHING: real := 0.3

  /** The distances handleStates compares against, squared: 600 (food in
      sight), 150 (cursor too close), 50 (cursor reached), 20 (close enough
      to rattle), 15 (close enough to eat). */
  const FOOD_RANGE_SQ: real := 360000.0
  const AVOID_RANGE_SQ: real := 22500.0
  const FOLLOW_RANGE_SQ: real := 2500.0
  const RATTLE_RANGE_SQ: real := 400.0
  const EAT_RANGE_SQ: real := 225.0

  // ---------------------------------------------------------------------
  // Timers

  /** The names of a fish's timers: "changePath", "resting" and
      "checkForFood". */
  datatype TimerName = ChangePathTimer | RestingTimer | CheckForFoodTimer

  /** The `timer` object of a fish: a countdown (in seconds at 60 frames per
      second) per name, None once it has fired (JavaScript's null). */
  datatype Timers = Timers(changePath: Option<real>, resting: Option<real>, checkForFood: Option<real>)
  {
    /** `timer[name]`. */
    function Get(name: TimerName): Option<real>
    {
      match name
      case ChangePathTimer => changePath
      case RestingTimer => resting
      case CheckForFoodTimer => checkForFood
    }

    /** `timer[name] = v`: only that timer changes. */
    function Set(name: TimerName, v: Option<real>): (t: Timers)
      ensures t.Get(name) == v
      ensures forall n :: n != name ==> t.Get(n) == Get(n)
    {
      match name
      case ChangePathTimer => this.(changePath := v)
      case RestingTimer => this.(resting := v)
      case CheckForFoodTimer => this.(checkForFood := v)
    }
  }

  /** What timerCountdown returns: false while counting down, true on the
      one call that disarms a run-out timer, and null for a disarmed timer. */
  datatype Countdown = Counting | Fired | Disarmed

  /** The timers a new fish starts with, from three Math.random() values:
      changePath in [1, 3), resting in [5, 35), checkForFood in [0.5, 2.5). */
  function StartingTimers(c: real, rs: real, cf: real): Timers
  {
    Timers(Some(Draw(1.0, c, 2.0)), Some(Draw(5.0, rs, 30.0)), Some(Draw(0.5, cf, 2.0)))
  }

  /** All three starting timers are armed, each within its range. */
  lemma StartingTimersArmed(c: Prob, rs: Prob, cf: Prob)
    ensures var t := StartingTimers(c, rs, cf);
      && t.changePath.Some? && 1.0 <= t.changePath.value < 3.0
      && t.resting.Some? && 5.0 <= t.resting.value < 35.0
      && t.checkForFood.Some? && 0.5 <= t.checkForFood.value < 2.5
  {
    ScaleFraction(c, 2.0);
    ScaleFraction(rs, 30.0);
    ScaleFraction(cf, 2.0);
  }

  /** One frame of countdown: a timer loses 1/60 per unit of frame time. */
  function Decrement(v: real, dt: real): real
  {
    v - 1.0 / 60.0 * dt
  }

  /** `timerCountdown(name, deltaTime)` as a function of the timer object. */
  function Tick(timers: Timers, name: TimerName, dt: real): (r: (Timers, Countdown))
    ensures forall n :: n != name ==> r.0.Get(n) == timers.Get(n)
    ensures r.1 == Fired <==> timers.Get(name).Some? && timers.Get(name).value <= 0.0
    ensures r.1 == Disarmed <==> timers.Get(name).None?
    ensures r.1 == Disarmed ==> r.0 == timers
    ensures r.1 == Counting ==> r.0.Get(name) == Some(Decrement(timers.Get(name).value, dt))
    ensures r.1 == Fired ==> r.0.Get(name) == None
  {
    var v := timers.Get(name);
    if v.Some? && v.value > 0.0 then
      (timers.Set(name, Some(Decrement(v.value, dt))), Counting)
    else if v.Some? then
      (timers.Set(name, None), Fired)
    else
      (timers, Disarmed)
  }

  /** The results of n consecutive countdowns of one timer with the same dt. */
  function Run(timers: Timers, name: TimerName, dt: real, n: nat): (r: seq<Countdown>)
    ensures |r| == n
    decreases n
  {
    if n == 0 then []
    else
      var t := Tick(timers, name, dt);
      [t.1] + Run(t.0, name, dt, n - 1)
  }

  /** A disarmed timer never fires again. */
  lemma {:induction false} DisarmedStaysDisarmed(timers: Timers, name: TimerName, dt: real, n: nat)
    requires timers.Get(name).None?
    ensures forall i :: 0 <= i < n ==> Run(timers, name, dt, n)[i] == Disarmed
    decreases n
  {
    if n > 0 {
      DisarmedStaysDisarmed(Tick(timers, name, dt).0, name, dt, n - 1);
    }
  }

  /** A timer fires at most once per arming: every call after the firing one
      returns null. */
  lemma {:induction false} FiresAtMostOnce(timers: Timers, name: TimerName, dt: real, n: nat)
    ensures forall i, j :: 0 <= i < j < n && Run(timers, name, dt, n)[i] == Fired ==>
      Run(timers, name, dt, n)[j] == Disarmed
    decreases n
  {
    if n > 0 {
      var t := Tick(timers, name, dt);
      var r := Run(timers, name, dt, n);
      assert r == [t.1] + Run(t.0, name, dt, n - 1);
      if t.1 == Fired {
        DisarmedStaysDisarmed(t.0, name, dt, n - 1);
      } else {
        FiresAtMostOnce(t.0, name, dt, n - 1);
      }
    }
  }

  /** The call that brings a positive timer to zero or below still returns
      false; the timer only fires on the call after it. */
  lemma FiresOneCallLate(timers: Timers, name: TimerName, dt: real)
    requires timers.Get(name).Some?
    requires timers.Get(name).value > 0.0 && timers.Get(name).value - 1.0 / 60.0 * dt <= 0.0
    ensures Run(timers, name, dt, 2) == [Counting, Fired]
  {
    var t := Tick(timers, name, dt);
    assert Run(timers, name, dt, 2) == [t.1] + Run(t.0, name, dt, 1);
  }

  /** With a positive frame time, a timer armed with v fires within the first
      n + 1 calls once n frames of countdown cover v. */
  lemma {:induction false} FiresInTime(timers: Timers, name: TimerName, dt: real, n: nat)
    requires timers.Get(name).Some?
    requires dt > 0.0 && timers.Get(name).value <= (n as real) * (1.0 / 60.0 * dt)
    ensures Fired in Run(timers, name, dt, n + 1)
    decreases n
  {
    var t := Tick(timers, name, dt);
    assert Run(timers, name, dt, n + 1) == [t.1] + Run(t.0, name, dt, n);
    if t.1 != Fired {
      var step := 1.0 / 60.0 * dt;
      assert (0 as real) * step == 0.0;
      assert n > 0;
      assert ((n - 1) as real) * step == (n as real) * step - step;
      FiresInTime(t.0, name, dt, n - 1);
    }
  }

  // ---------------------------------------------------------------------
  // Speeds

  /** The number of Math.random() draws setStateSpeed makes before the
      wiggle deviation: one for the states whose target speed is random. */
  function SpeedDraws(s: State): nat
  {
    if s == Idling || s == Following || s == Avoiding then 1 else 0
  }

  /** The target speed setStateSpeed picks for a state (r is the draw, used
      only by the states with a random speed). */
  function StateSpeed(s: State, r: Prob): (v: real)
    ensures s == Idling ==> 0.3 <= v < 1.3
    ensures s == Following ==> 2.0 <= v < 3.0
    ensures s == Avoiding ==> 2.0 <= v < 4.0
    ensures s == Resting || s == Eating ==> v == 0.2
    ensures s == MovingToTarget || s == Fighting ==> v == 2.0
  {
    match s
    case Idling => Draw(0.3, r, 1.0)
    case Following => Draw(2.0, r, 1.0)
    case Avoiding => Draw(2.0, r, 2.0)
    case Resting => 0.2
    case MovingToTarget => 2.0
    case Eating => 0.2
    case Fighting => 2.0
  }

  /** A target speed lies in the range setStateSpeed gives its state. */
  predicate SpeedFits(s: State, v: real)
  {
    match s
    case Idling => 0.3 <= v < 1.3
    case Following => 2.0 <= v < 3.0
    case Avoiding => 2.0 <= v < 4.0
    case Resting => v == 0.2
    case MovingToTarget => v == 2.0
    case Eating => v == 0.2
    case Fighting => v == 2.0
  }

  /** Every target speed that fits its state is a fast one (at least 2)
      exactly for the chasing states. */
  lemma FastStates(s: State, v: real)
    requires SpeedFits(s, v)
    ensures v >= 2.0 <==> s in {Following, Avoiding, MovingToTarget, Fighting}
    ensures v >= 0.2
  {
  }

  /** The wiggle duration setStateSpeed picks: about 0.3 seconds for a fast
      fish and 0.7 otherwise, shifted by a random deviation in [-0.05, 0.1). */
  function WiggleSpeedFor(targetSpeed: real, r: Prob): (w: real)
    ensures targetSpeed >= 2.0 ==> 0.25 <= w < 0.4
    ensures targetSpeed < 2.0 ==> 0.65 <= w < 0.8
  {
    var deviation := Draw(-0.05, r, 0.15);
    if targetSpeed >= 2.0 then 0.3 + deviation else 0.7 + deviation
  }

  /** The wiggle duration matches the target speed it was drawn for. */
  predicate WiggleFits(targetSpeed: real, w: real)
  {
    && (targetSpeed >= 2.0 ==> 0.25 <= w < 0.4)
    && (targetSpeed < 2.0 ==> 0.65 <= w < 0.8)
  }

  /** The speed step of `update`: accelerate towards a higher target speed,
      otherwise brake while still moving forward. Each branch changes the
      speed by exactly its step; with non-negative steps the speed moves
      towards the target, and a fish at rest with no higher target stays
      at rest. */
  function Ease(speed: real, targetSpeed: real, acceleration: real, deceleration: real, dt: real): (v: real)
    ensures acceleration * dt >= 0.0 ==> (speed < targetSpeed ==> speed <= v <= speed + acceleration * dt)
    ensures deceleration * dt >= 0.0 ==> (speed >= targetSpeed ==> speed - deceleration * dt <= v <= speed)
    ensures speed <= 0.0 && targetSpeed <= speed ==> v == speed
    ensures speed < targetSpeed ==> v - speed == acceleration * dt
    ensures targetSpeed <= speed && 0.0 < speed ==> speed - v == deceleration * dt
  {
    if speed < targetSpeed then speed + acceleration * dt
    else if speed > 0.0 then speed - deceleration * dt
    else speed
  }

  /** The last lines of `update`: a fish at (x, y) swims speed * dt along
      its direction (0 points up the screen, the y axis points down). Along
      each axis it moves by at most |speed * dt|, and not at all when that
      is zero. */
  function Advance(x: real, y: real, speed: real, dt: real, direction: real, env: Env): (r: (real, real))
    ensures Abs(r.0 - x) <= Abs(speed * dt) && Abs(r.1 - y) <= Abs(speed * dt)
    ensures speed * dt == 0.0 ==> r == (x, y)
  {
    var m := speed * dt;
    var sx, cy := env.Sin(direction), env.Cos(direction);
    ScaledByUnit(m, sx);
    ScaledByUnit(m, cy);
    (x + m * sx, y - m * cy)
  }

  /** n frames of easing towards a fixed target speed. */
  function EaseN(speed: real, targetSpeed: real, acceleration: real, deceleration: real, dt: real, n: nat): real
    decreases n
  {
    if n == 0 then speed
    else EaseN(Ease(speed, targetSpeed, acceleration, deceleration, dt), targetSpeed, acceleration, deceleration, dt, n - 1)
  }

  /** Towards a positive target speed, easing never leaves the band from one
      braking step below the target to one acceleration step above it: the
      speed settles into a small oscillation around the target. */
  lemma {:induction false} EaseNStaysInBand(speed: real, targetSpeed: real, acceleration: real, deceleration: real, dt: real, n: nat)
    requires targetSpeed > 0.0 && acceleration * dt >= 0.0 && deceleration * dt >= 0.0
    requires targetSpeed - deceleration * dt <= speed < targetSpeed + acceleration * dt
    ensures var v := EaseN(speed, targetSpeed, acceleration, deceleration, dt, n);
      targetSpeed - deceleration * dt <= v < targetSpeed + acceleration * dt
    decreases n
  {
    if n > 0 {
      var v := Ease(speed, targetSpeed, acceleration, deceleration, dt);
      assert targetSpeed - deceleration * dt <= v < targetSpeed + acceleration * dt;
      EaseNStaysInBand(v, targetSpeed, acceleration, deceleration, dt, n - 1);
    }
  }

  /** Below the target, each frame adds exactly one acceleration step, so a
      slow fish speeds up by n steps as long as it stays below the target. */
  lemma {:induction false} EaseNAccelerates(speed: real, targetSpeed: real, acceleration: real, deceleration: real, dt: real, n: nat)
    requires speed + (n as real) * (acceleration * dt) <= targetSpeed
    requires acceleration * dt > 0.0
    ensures EaseN(speed, targetSpeed, acceleration, deceleration, dt, n) == speed + (n as real) * (acceleration * dt)
    decreases n
  {
    if n == 0 {
      assert (n as real) * (acceleration * dt) == 0.0;
    } else {
      assert (n as real) * (acceleration * dt) == ((n - 1) as real) * (acceleration * dt) + acceleration * dt;
      MulNonNeg((n - 1) as real, acceleration * dt);
      assert Ease(speed, targetSpeed, acceleration, deceleration, dt) == speed + acceleration * dt;
      EaseNAccelerates(speed + acceleration * dt, targetSpeed, acceleration, deceleration, dt, n - 1);
    }
  }

  /** Braking twin of EaseNAccelerates: a fish at or above its target speed
      that stays moving forward loses exactly one braking step per frame. */
  lemma {:induction false} EaseNBrakes(speed: real, targetSpeed: real, acceleration: real, deceleration: real, dt: real, n: nat)
    requires speed - (n as real) * (deceleration * dt) >= targetSpeed
    requires speed - (n as real) * (deceleration * dt) >= 0.0
    requires deceleration * dt > 0.0
    ensures EaseN(speed, targetSpeed, acceleration, deceleration, dt, n) == speed - (n as real) * (deceleration * dt)
    decreases n
  {
    if n == 0 {
      assert (n as real) * (deceleration * dt) == 0.0;
    } else {
      assert (n as real) * (deceleration * dt) == ((n - 1) as real) * (deceleration * dt) + deceleration * dt;
      MulNonNeg((n - 1) as real, deceleration * dt);
      assert Ease(speed, targetSpeed, acceleration, deceleration, dt) == speed - deceleration * dt;
      EaseNBrakes(speed - deceleration * dt, targetSpeed, acceleration, deceleration, dt, n - 1);
    }
  }

  // ---------------------------------------------------------------------
  // Geometry

  /** Comparing a coordinate offset with a bound is comparing their squares. */
  lemma SquareCompare(d: real, m: real)
    requires m >= 0.0
    ensures Abs(d) > m ==> d * d > m * m
    ensures Abs(d) <= m ==> d * d <= m * m
  {
    var a := Abs(d);
    assert d * d == a * a;
    if a > m {
      var e := a - m;
      assert a * a == m * m + e * (2.0 * m + e);
      MulNonNeg(e, 2.0 * m + e);
    } else {
      var e := m - a;
      assert m * m == a * a + e * (2.0 * a + e);
      MulNonNeg(e, 2.0 * a + e);
    }
  }

  /** The square of `distanceToPoint`: the model compares squared distances
      with squared radii instead of taking Math.sqrt. */
  function DistanceSquared(x1: real, y1: real, x2: real, y2: real): (d: real)
    ensures d >= 0.0
  {
    SumOfSquares(x1 - x2, y1 - y2);
    (x1 - x2) * (x1 - x2) + (y1 - y2) * (y1 - y2)
  }

  /** Two points farther apart than m along either axis are farther apart
      than m; two points within m along both axes are within m * sqrt 2. */
  lemma DistanceBox(x1: real, y1: real, x2: real, y2: real, m: real)
    requires m >= 0.0
    ensures Abs(x1 - x2) > m || Abs(y1 - y2) > m ==> DistanceSquared(x1, y1, x2, y2) > m * m
    ensures Abs(x1 - x2) <= m && Abs(y1 - y2) <= m ==> DistanceSquared(x1, y1, x2, y2) <= 2.0 * m * m
  {
    var dx, dy := x1 - x2, y1 - y2;
    SquareCompare(dx, m);
    SquareCompare(dy, m);
    Square(dx);
    Square(dy);
    assert DistanceSquared(x1, y1, x2, y2) == dx * dx + dy * dy;
  }

  /** A point is at distance zero from itself. */
  lemma DistanceToSelf(x: real, y: real)
    ensures DistanceSquared(x, y, x, y) == 0.0
  {
    assert (x - x) * (x - x) == 0.0 * 0.0;
  }

  lemma SumOfSquares(a: real, b: real)
    ensures a * a + b * b >= 0.0
  {
    Square(a);
    Square(b);
  }

  /** The distance does not depend on which end it is measured from. */
  lemma DistanceSymmetric(x1: real, y1: real, x2: real, y2: real)
    ensures DistanceSquared(x1, y1, x2, y2) == DistanceSquared(x2, y2, x1, y1)
  {
    assert (x1 - x2) * (x1 - x2) == (x2 - x1) * (x2 - x1);
    assert (y1 - y2) * (y1 - y2) == (y2 - y1) * (y2 - y1);
  }

  /** `smoothRotation(angle, targetAngle, rSpeed)`: a turn towards the target
      angle by at most rSpeed (for a non-negative speed), and never by more
      than the remaining difference. */
  function SmoothRotation(angle: real, targetAngle: real, rSpeed: real, env: Env): (a: real)
    ensures rSpeed >= 0.0 ==> Abs(a - angle) <= Min(Abs(targetAngle - angle), rSpeed)
    ensures Abs(a - angle) <= Abs(Min(Abs(targetAngle - angle), rSpeed))
  {
    var diff := targetAngle - angle;
    ScaledByUnit(Min(Abs(diff), rSpeed), env.Sin(diff));
    angle + Min(Abs(diff), rSpeed) * env.Sin(diff)
  }

  /** The animationWave of src/Fish.js. Unlike the one in src/misc.js its
      amplitude is the whole range, so it swings between -range and range. */
  function AnimationWave(range: real, duration: real, env: Env): (v: real)
    requires duration != 0.0
    ensures range >= 0.0 ==> -range <= v <= range
  {
    var a4 := (range - -range) * 0.5;
    var s := env.Sin(WavePhase(env.nowMs, duration));
    ScaledByUnit(a4, s);
    -range + a4 + s * a4
  }

  /** The rattle and rock offsets stay within a tenth of a radian. */
  lemma SmallWaves(env: Env)
    ensures -0.1 <= AnimationWave(0.1, 3.0, env) <= 0.1
    ensures -0.1 <= AnimationWave(0.1, 0.02, env) <= 0.1
  {
  }

  /** `wiggle()`: no wiggle below a target speed of 0.5, otherwise a wave
      of duration wiggleSpeed within a tenth of a radian. */
  function Wiggle(targetSpeed: real, wiggleSpeed: real, env: Env): (v: real)
    requires targetSpeed >= 0.5 ==> wiggleSpeed != 0.0
    ensures -0.1 <= v <= 0.1
    ensures targetSpeed < 0.5 ==> v == 0.0
  {
    if targetSpeed < 0.5 then 0.0 else AnimationWave(0.1, wiggleSpeed, env)
  }

  /** `isOutsideRoom()`: the tank is the closed rectangle from (0, 0) to
      (width, height), so a fish on its edge is still inside. */
  function OutsideRoom(x: real, y: real, env: Env): (b: bool)
    ensures b <==> !(0.0 <= x <= env.width && 0.0 <= y <= env.height)
  {
    x < 0.0 || x > env.width || y < 0.0 || y > env.height
  }
}
