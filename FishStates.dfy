/** The behaviour part of a fish (src/Fish.js:92-208): the values
    handleStates, changeState and setStateSpeed may change, and one pure
    function per step of handleStates that says what the step leaves them
    as. The methods of FishClass.Fish are proved to compute exactly these
    functions; the properties of the state machine are stated here, about
    the functions.

    Every function that consumes Math.random() values takes the stream as a
    Draws value and returns the stream after its last draw, so that the
    number and order of the draws are part of what is specified. */
module FishStates {
  import opened Host
  import opened Js
  import opened Misc
  import opened Foods
  import opened Fishes

  /** What `target.obj` refers to: nothing (null), a pellet of the `foods`
      array, or the plain `{x, y}` object the right mouse button stores. */
  datatype TargetRef = NoTarget | FoodRef(food: Food) | Point(px: real, py: real)

  /** The pellets a target refers to (the objects whose position it reads). */
  function RefFoods(t: TargetRef): set<Food>
  {
    if t.FoodRef? then {t.food} else {}
  }

  /** `foods.indexOf(target.obj)`: only a pellet can be found in `foods`. */
  function RefIndex(elems: seq<Food>, t: TargetRef): (i: int)
    ensures -1 <= i < |elems|
    ensures i == -1 <==> !t.FoodRef? || t.food !in elems
    ensures 0 <= i ==> elems[i] == t.food
  {
    if t.FoodRef? then IndexOf(elems, t.food) else -1
  }

  /** `target.obj.x` and `target.obj.y`. */
  function TargetPos(t: TargetRef): (real, real)
    requires !t.NoTarget?
    reads RefFoods(t)`y
  {
    if t.FoodRef? then (t.food.x, t.food.y) else (t.px, t.py)
  }

  /** Where `target.obj` is for the MOVING_TO_TARGET case: the object's
      position, or the target point itself when there is no object (a case
      that never reaches MOVING_TO_TARGET, see Aimed). */
  function ObjPos(t: TargetRef, targetX: real, targetY: real): (real, real)
    reads RefFoods(t)`y
  {
    if t.NoTarget? then (targetX, targetY) else TargetPos(t)
  }

  /** The fields of a fish that handleStates may change. */
  datatype Behaviour = Behaviour(
    y: real,
    angle: real,
    targetAngle: real,
    targetX: real,           // target.x
    targetY: real,           // target.y
    targetObj: TargetRef,    // target.obj
    state: State,
    targetSpeed: real,
    wiggleSpeed: real,
    timer: Timers,
    performingAction: bool)

  /** A fish on its way to a target has one to go to. */
  predicate Aimed(b: Behaviour)
  {
    b.state == MovingToTarget ==> !b.targetObj.NoTarget?
  }

  /** What setStateSpeed establishes and the program keeps: the target
      speed fits the state, the wiggle duration fits the target speed, and
      a moving fish has a target. */
  predicate WellFormed(b: Behaviour)
  {
    SpeedFits(b.state, b.targetSpeed) && WiggleFits(b.targetSpeed, b.wiggleSpeed) && Aimed(b)
  }

  /** The states a fish in state s can be in after one handleStates: its
      own, IDLING, MOVING_TO_TARGET (food in sight), EATING (food reached),
      and RESTING only from IDLING. */
  predicate MayFollow(s: State, t: State)
  {
    t == s || t == Idling || t == MovingToTarget || t == Eating || (t == Resting && s == Idling)
  }

  // ---------------------------------------------------------------------
  // setStateSpeed and changeState

  /** `setStateSpeed(s)`: one draw for a random target speed (IDLING,
      FOLLOWING, AVOIDING only), then one for the wiggle deviation. */
  function SetStateSpeedSpec(b: Behaviour, s: State, d: Draws): (r: (Behaviour, Draws))
    ensures SpeedFits(s, r.0.targetSpeed)
    ensures WiggleFits(r.0.targetSpeed, r.0.wiggleSpeed)
    ensures r.0 == b.(targetSpeed := r.0.targetSpeed, wiggleSpeed := r.0.wiggleSpeed)
    ensures r.1 == d.Skip(SpeedDraws(s) + 1)
  {
    var ts := StateSpeed(s, d.At(0));
    var w := WiggleSpeedFor(ts, d.At(SpeedDraws(s)));
    (b.(targetSpeed := ts, wiggleSpeed := w), d.Skip(SpeedDraws(s) + 1))
  }

  /** `changeState(s)`: the new state with a speed drawn for it, and the
      action flag cleared. */
  function ChangeStateSpec(b: Behaviour, s: State, d: Draws): (r: (Behaviour, Draws))
    ensures r.0.state == s && !r.0.performingAction
    ensures SpeedFits(s, r.0.targetSpeed) && WiggleFits(r.0.targetSpeed, r.0.wiggleSpeed)
    ensures r.0 == b.(state := s, targetSpeed := r.0.targetSpeed, wiggleSpeed := r.0.wiggleSpeed,
      performingAction := false)
    ensures r.1 == d.Skip(SpeedDraws(s) + 1)
  {
    var (b1, d1) := SetStateSpeedSpec(b.(state := s), s, d);
    (b1.(performingAction := false), d1)
  }

  // ---------------------------------------------------------------------
  // The steps of handleStates

  /** The angle `pointTowards(tx, ty)` gives a fish at (x, y). */
  function PointTowards(x: real, y: real, tx: real, ty: real, env: Env): real
  {
    env.atan2(ty - y, tx - x)
  }

  /** The first step of handleStates: count down checkForFood. It fires
      exactly when that timer is armed and has run out; only that timer
      changes: a firing disarms it, a running one drops by dt/60. */
  function FoodTimerSpec(b: Behaviour, dt: real): (r: (Behaviour, bool))
    ensures r.1 <==> b.timer.checkForFood.Some? && b.timer.checkForFood.value <= 0.0
    ensures r.0 == b.(timer := r.0.timer)
    ensures r.0.timer.changePath == b.timer.changePath && r.0.timer.resting == b.timer.resting
    ensures r.1 ==> r.0.timer.checkForFood.None?
    ensures b.timer.checkForFood.None? ==> r.0 == b
    ensures b.timer.checkForFood.Some? && b.timer.checkForFood.value > 0.0 ==>
      r.0.timer.checkForFood == Some(Decrement(b.timer.checkForFood.value, dt))
  {
    var (t, c) := Tick(b.timer, CheckForFoodTimer, dt);
    (b.(timer := t), c == Fired)
  }

  /** The squared distances from (x, y) to each pellet: the `distance`
      properties nearestInstance attaches before it sorts. */
  function Keys(elems: seq<Food>, x: real, y: real): (k: seq<real>)
    reads (set f | f in elems)`y
    ensures |k| == |elems|
    ensures forall i :: 0 <= i < |elems| ==> k[i] == DistanceSquared(x, y, elems[i].x, elems[i].y)
    decreases |elems|
  {
    if |elems| == 0 then []
    else [DistanceSquared(x, y, elems[0].x, elems[0].y)] + Keys(elems[1..], x, y)
  }

  /** The `foods` array after nearestInstance has sorted it in place. */
  function Sorted(elems: seq<Food>, x: real, y: real, env: Env): (s: seq<Food>)
    reads (set f | f in elems)`y
    ensures multiset(s) == multiset(elems)
    ensures |s| == |elems|
  {
    var p := env.SortOrder(Keys(elems, x, y));
    PermutePreservesMultiset(elems, p);
    Permute(elems, p)
  }

  /** `checkForFood()` for a fish at horizontal position x: with no pellets
      nothing happens; otherwise `foods` is sorted and its first pellet is
      taken as the target when it is within 600. */
  function CheckForFoodSpec(b: Behaviour, x: real, elems: seq<Food>, d: Draws, env: Env): (r: (Behaviour, seq<Food>, Draws))
    reads (set f | f in elems)`y
    ensures |elems| == 0 ==> r == (b, elems, d)
    ensures multiset(r.1) == multiset(elems)
    ensures |elems| > 0 ==> r.1 == Sorted(elems, x, b.y, env)
    ensures |elems| > 0 && DistanceSquared(x, b.y, r.1[0].x, r.1[0].y) <= FOOD_RANGE_SQ ==>
      && r.0.targetObj == FoodRef(r.1[0])
      && r.0.state == MovingToTarget
      && r.0.performingAction
      && r.0 == b.(targetObj := r.0.targetObj, state := r.0.state, targetSpeed := r.0.targetSpeed,
        wiggleSpeed := r.0.wiggleSpeed, performingAction := true)
      && r.2 == d.Skip(1)
    ensures (|elems| == 0 || DistanceSquared(x, b.y, r.1[0].x, r.1[0].y) > FOOD_RANGE_SQ) ==>
      r.0 == b && r.2 == d
    ensures WellFormed(b) ==> WellFormed(r.0)
  {
    if |elems| == 0 then (b, elems, d)
    else
      var sorted := Sorted(elems, x, b.y, env);
      assert sorted[0] in multiset(elems);
      var (b1, d1) := TakeTargetSpec(b, x, sorted[0], d);
      (b1, sorted, d1)
  }

  /** The end of `checkForFood()`: the nearest pellet becomes the target,
      and the fish starts MOVING_TO_TARGET, when it lies within 600. */
  function TakeTargetSpec(b: Behaviour, x: real, nearest: Food, d: Draws): (r: (Behaviour, Draws))
    reads nearest`y
    ensures DistanceSquared(x, b.y, nearest.x, nearest.y) <= FOOD_RANGE_SQ ==>
      && r.0 == b.(targetObj := FoodRef(nearest), state := MovingToTarget, targetSpeed := r.0.targetSpeed,
        wiggleSpeed := r.0.wiggleSpeed, performingAction := true)
      && r.1 == d.Skip(1)
    ensures DistanceSquared(x, b.y, nearest.x, nearest.y) > FOOD_RANGE_SQ ==> r == (b, d)
    ensures WellFormed(b) ==> WellFormed(r.0)
  {
    if DistanceSquared(x, b.y, nearest.x, nearest.y) <= FOOD_RANGE_SQ then
      var (b1, d1) := ChangeStateSpec(b.(targetObj := FoodRef(nearest)), MovingToTarget, d);
      (b1.(performingAction := true), d1)
    else (b, d)
  }

  /** The changePath timer of the IDLING case: once it fires, a new idling
      speed, a random point of the tank to swim to and a new timer. */
  function NewPathSpec(b: Behaviour, dt: real, d: Draws, env: Env): (r: (Behaviour, Draws))
  {
    var (t1, c1) := Tick(b.timer, ChangePathTimer, dt);
    if c1 == Fired then
      var (bs, ds) := SetStateSpeedSpec(b.(timer := t1), Idling, d);
      (bs.(targetX := RandomCoordinate(ds.At(0), env.width), targetY := RandomCoordinate(ds.At(1), env.height),
           timer := bs.timer.Set(ChangePathTimer, Some(Draw(1.0, ds.At(2), 3.0)))), ds.Skip(3))
    else (b.(timer := t1), d)
  }

  /** The resting timer of the IDLING case: once it fires, the fish rests. */
  function FallAsleepSpec(b: Behaviour, dt: real, d: Draws): (r: (Behaviour, Draws))
  {
    var (t3, c3) := Tick(b.timer, RestingTimer, dt);
    if c3 == Fired then
      var (bc, dc) := ChangeStateSpec(b.(timer := t3), Resting, d);
      (bc.(timer := bc.timer.Set(RestingTimer, Some(Draw(2.0, dc.At(0), 2.0)))), dc.Skip(1))
    else (b.(timer := t3), d)
  }

  /** The IDLING case: turn towards the target point; on the changePath
      timer draw a new speed, a new target point and a new timer value; on
      the resting timer start resting with a resting timer of 2 to 4. */
  function IdlingSpec(b: Behaviour, x: real, dt: real, d: Draws, env: Env): (r: (Behaviour, Draws))
    ensures r.0.state == b.state || r.0.state == Resting
    ensures r.0.targetObj == b.targetObj
    ensures WellFormed(b) && b.state == Idling ==> WellFormed(r.0)
    ensures r.0.timer.Get(CheckForFoodTimer) == b.timer.Get(CheckForFoodTimer)
  {
    var ta := PointTowards(x, b.y, b.targetX, b.targetY, env);
    var b1 := b.(targetAngle := ta, angle := SmoothRotation(b.angle, ta, ROTATION_SPEED_1 * dt, env));
    var (b2, d2) := NewPathSpec(b1, dt, d, env);
    FallAsleepSpec(b2, dt, d2)
  }

  function FollowingSpec(b: Behaviour, x: real, deviation: real, dt: real, env: Env): (r: Behaviour)
    ensures r == b.(targetX := r.targetX, targetY := r.targetY, targetAngle := r.targetAngle, angle := r.angle)
  {
    if DistanceSquared(x, b.y, env.mouseX, env.mouseY) > FOLLOW_RANGE_SQ then
      var ta := PointTowards(x, b.y, env.mouseX, env.mouseY, env);
      b.(targetX := env.mouseX, targetY := env.mouseY, targetAngle := ta,
         angle := SmoothRotation(b.angle, ta + DegToRad(deviation), ROTATION_SPEED_2 * dt, env))
    else b
  }

  /** The AVOIDING case: while the cursor is closer than 150, aim away from
      it (the program subtracts 180 from an angle in radians); otherwise go
      back to IDLING. */
  function AvoidingSpec(b: Behaviour, x: real, dt: real, d: Draws, env: Env): (r: (Behaviour, Draws))
    ensures r.0.state == b.state || r.0.state == Idling
    ensures r.0.targetObj == b.targetObj && r.0.timer == b.timer
    ensures WellFormed(b) ==> WellFormed(r.0)
  {
    if DistanceSquared(x, b.y, env.mouseX, env.mouseY) < AVOID_RANGE_SQ then
      var ta := PointTowards(x, b.y, env.mouseX, env.mouseY, env) - 180.0;
      (b.(targetX := env.mouseX, targetY := env.mouseY, targetAngle := ta,
          angle := SmoothRotation(b.angle, ta, ROTATION_SPEED_2 * dt, env)), d)
    else ChangeStateSpec(b, Idling, d)
  }

  /** `rock(deltaTime)`: a slow swing of the angle and a drift of y. */
  function RockSpec(b: Behaviour, dt: real, env: Env): (r: Behaviour)
  {
    var rockValue := Fishes.AnimationWave(0.1, 3.0, env);
    var ta := b.angle + rockValue;
    b.(targetAngle := ta, angle := SmoothRotation(b.angle, ta, ROTATION_SPEED_1 * dt, env),
       y := b.y + rockValue * dt)
  }

  /** A rock step moves y by exactly the wave times dt, given as `drift`. */
  lemma RockStep(b: Behaviour, dt: real, env: Env, drift: real)
    requires drift == Fishes.AnimationWave(0.1, 3.0, env) * dt
    ensures RockSpec(b, dt, env).y == b.y + drift
  {
  }

  /** The RESTING case: rock; on the resting timer go back to IDLING with a
      resting timer of 20 to 30. */
  function RestingSpec(b: Behaviour, dt: real, d: Draws, env: Env): (r: (Behaviour, Draws))
    ensures r.0.state == b.state || r.0.state == Idling
    ensures r.0.targetObj == b.targetObj
    ensures WellFormed(b) ==> WellFormed(r.0)
    ensures r.0.timer.Get(CheckForFoodTimer) == b.timer.Get(CheckForFoodTimer)
  {
    var b1 := RockSpec(b, dt, env);
    var (t, c) := Tick(b1.timer, RestingTimer, dt);
    if c == Fired then
      var (bc, dc) := ChangeStateSpec(b1.(timer := t), Idling, d);
      (bc.(timer := bc.timer.Set(RestingTimer, Some(Draw(20.0, dc.At(0), 10.0)))), dc.Skip(1))
    else (b1.(timer := t), d)
  }

  /** The MOVING_TO_TARGET case: a target that is no longer in `foods`
      sends the fish back to IDLING, but the rest of the case still runs:
      it takes the target's position pos, turns towards it, rattles within
      20 and starts EATING within 15. */
  function MovingSpec(b: Behaviour, x: real, elems: seq<Food>, pos: (real, real), dt: real, d: Draws, env: Env)
    : (r: (Behaviour, Draws))
    ensures r.0.state == b.state || r.0.state == Idling || r.0.state == Eating
    ensures r.0.targetObj == b.targetObj && r.0.timer == b.timer
    ensures WellFormed(b) ==> WellFormed(r.0)
  {
    var (b1, d1) := if RefIndex(elems, b.targetObj) == -1 then ChangeStateSpec(b, Idling, d) else (b, d);
    ApproachSpec(b1, x, pos, dt, d1, env)
  }

  /** The part of the MOVING_TO_TARGET case after the check that the target
      is still there: take its position pos, turn towards it, rattle within
      20 and start EATING within 15. */
  function ApproachSpec(b: Behaviour, x: real, pos: (real, real), dt: real, d: Draws, env: Env): (r: (Behaviour, Draws))
    ensures r.0.state == b.state || r.0.state == Eating
    ensures r.0.targetObj == b.targetObj && r.0.timer == b.timer
    ensures WellFormed(b) ==> WellFormed(r.0)
  {
    var (tx, ty) := pos;
    var ta := PointTowards(x, b.y, tx, ty, env);
    var b2 := b.(targetX := tx, targetY := ty, targetAngle := ta,
                 angle := SmoothRotation(b.angle, ta, ROTATION_SPEED_3 * dt, env));
    var dsq := DistanceSquared(x, b.y, tx, ty);
    if dsq < RATTLE_RANGE_SQ then
      var b3 := b2.(angle := b2.angle + Fishes.AnimationWave(0.1, 0.02, env));
      if dsq <= EAT_RANGE_SQ then ChangeStateSpec(b3, Eating, d) else (b3, d)
    else (b2, d)
  }

  /** The EATING case: `foods.splice(foods.indexOf(target.obj), 1)`, then
      back to IDLING. */
  function EatingSpec(b: Behaviour, elems: seq<Food>, d: Draws): (r: (Behaviour, seq<Food>, Draws))
    ensures r.0.state == Idling && 0.3 <= r.0.targetSpeed < 1.3
    ensures r.0.targetObj == b.targetObj && r.0.timer == b.timer
    ensures r.1 == Splice1(elems, RefIndex(elems, b.targetObj))
  {
    var (b1, d1) := ChangeStateSpec(b, Idling, d);
    (b1, Splice1(elems, RefIndex(elems, b.targetObj)), d1)
  }

  /** The pellets handleStates may read the position of. */
  function Sight(b: Behaviour, elems: seq<Food>): set<Food>
  {
    (set f | f in elems) + RefFoods(b.targetObj)
  }

  /** The part of handleStates before the case switch: the food timer and,
      when it fires, checkForFood and the rearming of the timer to 2. */
  function BeforeSwitch(b: Behaviour, x: real, elems: seq<Food>, dt: real, d: Draws, env: Env)
    : (r: (Behaviour, seq<Food>, Draws))
    reads (set f | f in elems)`y
    ensures Aimed(b) ==> Aimed(r.0)
    ensures WellFormed(b) ==> WellFormed(r.0)
    ensures RefFoods(r.0.targetObj) <= Sight(b, elems)
    ensures multiset(r.1) == multiset(elems)
    ensures r.0.state == b.state || r.0.state == MovingToTarget
    ensures r.0.state == MovingToTarget && b.state != MovingToTarget ==> |elems| > 0
    ensures Tick(b.timer, CheckForFoodTimer, dt).1 == Fired ==>
      r.0.timer.Get(CheckForFoodTimer) == Some(2.0)
    ensures Tick(b.timer, CheckForFoodTimer, dt).1 != Fired ==>
      r == (b.(timer := Tick(b.timer, CheckForFoodTimer, dt).0), elems, d)
  {
    var (b0, fired) := FoodTimerSpec(b, dt);
    if fired then
      var (bf, ef, df) := CheckForFoodSpec(b0, x, elems, d, env);
      (bf.(timer := bf.timer.Set(CheckForFoodTimer, Some(2.0))), ef, df)
    else (b0, elems, d)
  }

  /** The switch of `handleStates` on the state the fish is in once the food
      timer has run, with `target.obj` at pos. */
  function SwitchSpec(b: Behaviour, x: real, deviation: real, elems: seq<Food>, pos: (real, real), dt: real, d: Draws, env: Env)
    : (r: (Behaviour, seq<Food>, Draws))
  {
    match b.state
    case Idling =>
      var (b2, d2) := IdlingSpec(b, x, dt, d, env);
      (b2, elems, d2)
    case Following => (FollowingSpec(b, x, deviation, dt, env), elems, d)
    case Avoiding =>
      var (b2, d2) := AvoidingSpec(b, x, dt, d, env);
      (b2, elems, d2)
    case Resting =>
      var (b2, d2) := RestingSpec(b, dt, d, env);
      (b2, elems, d2)
    case MovingToTarget =>
      var (b2, d2) := MovingSpec(b, x, elems, pos, dt, d, env);
      (b2, elems, d2)
    case Eating => EatingSpec(b, elems, d)
    case Fighting => (b, elems, d)
  }

  /** `handleStates(deltaTime)` for a fish at horizontal position x with
      direction deviation `deviation`: the food timer, then the case of the
      state the fish is in after it. Returns the new behaviour, the new
      contents of `foods` and the rest of the random stream. */
  function HandleSpec(b: Behaviour, x: real, deviation: real, elems: seq<Food>, dt: real, d: Draws, env: Env)
    : (r: (Behaviour, seq<Food>, Draws))
    requires Aimed(b)
    reads Sight(b, elems)`y
  {
    var (b1, e1, d1) := BeforeSwitch(b, x, elems, dt, d, env);
    SwitchSpec(b1, x, deviation, e1, ObjPos(b1.targetObj, b1.targetX, b1.targetY), dt, d1, env)
  }

  /** The middle of `update` for a fish at (x, b.y): steer back into the
      tank when outside it, otherwise handleStates. */
  function NavigateSpec(b: Behaviour, x: real, deviation: real, elems: seq<Food>, dt: real, d: Draws, env: Env)
    : (r: (Behaviour, seq<Food>, Draws))
    requires Aimed(b)
    reads Sight(b, elems)`y
  {
    if OutsideRoom(x, b.y, env) then (SteerSpec(b, x, dt, env), elems, d)
    else HandleSpec(b, x, deviation, elems, dt, d, env)
  }

  /** The out-of-room branch of `update`: turn towards the middle of the
      tank at the return rate, and nothing else. */
  function SteerSpec(b: Behaviour, x: real, dt: real, env: Env): (r: Behaviour)
    ensures r == b.(targetAngle := r.targetAngle, angle := r.angle)
    ensures r.targetAngle == PointTowards(x, b.y, env.width / 2.0, env.height / 2.0, env)
    ensures dt >= 0.0 ==> Abs(r.angle - b.angle) <= RETURN_ROTATION * dt
  {
    var ta := PointTowards(x, b.y, env.width / 2.0, env.height / 2.0, env);
    if dt >= 0.0 then
      MulNonNeg(RETURN_ROTATION, dt);
      b.(targetAngle := ta, angle := SmoothRotation(b.angle, ta, RETURN_ROTATION * dt, env))
    else
      b.(targetAngle := ta, angle := SmoothRotation(b.angle, ta, RETURN_ROTATION * dt, env))
  }

  // ---------------------------------------------------------------------
  // Properties of the steps

  /** On the changePath timer an idling fish picks a target point inside
      the tank and rearms changePath with a value in [1, 4). */
  lemma IdlingNewPath(b: Behaviour, x: real, dt: real, d: Draws, env: Env)
    requires Tick(b.timer, ChangePathTimer, dt).1 == Fired
    ensures var r := IdlingSpec(b, x, dt, d, env).0;
      && 0.0 <= r.targetX <= env.width && (env.width > 0.0 ==> r.targetX < env.width)
      && 0.0 <= r.targetY <= env.height && (env.height > 0.0 ==> r.targetY < env.height)
      && r.timer.Get(ChangePathTimer).Some?
      && 1.0 <= r.timer.Get(ChangePathTimer).value < 4.0
  {
  }

  /** Without the changePath timer the target point stays where it was. */
  lemma IdlingKeepsPath(b: Behaviour, x: real, dt: real, d: Draws, env: Env)
    requires Tick(b.timer, ChangePathTimer, dt).1 != Fired
    ensures var r := IdlingSpec(b, x, dt, d, env).0;
      r.targetX == b.targetX && r.targetY == b.targetY
  {
  }

  /** On the resting timer an idling fish starts RESTING, slow, with a
      resting timer in [2, 4); without it the fish stays IDLING. */
  lemma IdlingStartsResting(b: Behaviour, x: real, dt: real, d: Draws, env: Env)
    requires b.state == Idling
    ensures var r := IdlingSpec(b, x, dt, d, env).0;
      if Tick(b.timer, RestingTimer, dt).1 == Fired then
        && r.state == Resting && r.targetSpeed == 0.2 && !r.performingAction
        && r.timer.Get(RestingTimer).Some?
        && 2.0 <= r.timer.Get(RestingTimer).value < 4.0
      else r.state == Idling
  {
    var ta := PointTowards(x, b.y, b.targetX, b.targetY, env);
    var b1 := b.(targetAngle := ta, angle := SmoothRotation(b.angle, ta, ROTATION_SPEED_1 * dt, env));
    var (t1, c1) := Tick(b1.timer, ChangePathTimer, dt);
    // rearming changePath leaves the resting entry as it was
    var t2 := if c1 == Fired then t1.Set(ChangePathTimer, Some(Draw(1.0, d.Skip(2).At(2), 3.0))) else t1;
    assert t2.Get(RestingTimer) == b.timer.Get(RestingTimer);
    assert Tick(t2, RestingTimer, dt).1 == Tick(b.timer, RestingTimer, dt).1;
  }

  /** A resting fish rocks by at most a tenth of a radian per unit of frame
      time; on the resting timer it wakes up to IDLING with a resting timer
      in [20, 30), otherwise it keeps resting. */
  lemma RestingWakesUp(b: Behaviour, dt: real, d: Draws, env: Env)
    requires b.state == Resting && dt >= 0.0
    ensures var r := RestingSpec(b, dt, d, env).0;
      && -0.1 * dt <= r.y - b.y <= 0.1 * dt
      && (if Tick(b.timer, RestingTimer, dt).1 == Fired then
            && r.state == Idling && 0.3 <= r.targetSpeed < 1.3
            && r.timer.Get(RestingTimer).Some?
            && 20.0 <= r.timer.Get(RestingTimer).value < 30.0
          else r.state == Resting)
  {
    var b1 := RockSpec(b, dt, env);
    RockDrifts(b, dt, env);
    var (t, c) := Tick(b1.timer, RestingTimer, dt);
    if c == Fired {
      var (bc, dc) := ChangeStateSpec(b1.(timer := t), Idling, d);
      var v := Draw(20.0, dc.At(0), 10.0);
      assert 20.0 <= v < 30.0;
      assert RestingSpec(b, dt, d, env).0 == bc.(timer := bc.timer.Set(RestingTimer, Some(v)));
    } else {
      assert RestingSpec(b, dt, d, env).0 == b1.(timer := t);
    }
  }

  /** rock() moves y by at most a tenth per unit of frame time and changes
      neither the state nor the timers. */
  lemma RockDrifts(b: Behaviour, dt: real, env: Env)
    requires dt >= 0.0
    ensures var r := RockSpec(b, dt, env);
      && -0.1 * dt <= r.y - b.y <= 0.1 * dt
      && r.state == b.state && r.timer == b.timer
  {
    DriftWithin(b.y, RockSpec(b, dt, env).y, Fishes.AnimationWave(0.1, 3.0, env), dt);
  }

  /** A height that drifts by w * dt, with w within a tenth and dt
      non-negative, moves by at most a tenth of dt. */
  lemma DriftWithin(y0: real, y1: real, w: real, dt: real)
    requires y1 == y0 + w * dt && -0.1 <= w <= 0.1 && dt >= 0.0
    ensures -0.1 * dt <= y1 - y0 <= 0.1 * dt
  {
    MulNonNeg(0.1 - w, dt);
    MulNonNeg(w + 0.1, dt);
  }

  /** A following fish keeps following; away from the cursor it takes the
      cursor as its target point, close to it nothing changes. */
  lemma FollowingFollows(b: Behaviour, x: real, deviation: real, dt: real, env: Env)
    ensures var r := FollowingSpec(b, x, deviation, dt, env);
      && r.state == b.state && r.timer == b.timer && r.targetSpeed == b.targetSpeed
      && (if DistanceSquared(x, b.y, env.mouseX, env.mouseY) > FOLLOW_RANGE_SQ
          then r.targetX == env.mouseX && r.targetY == env.mouseY
          else r == b)
  {
  }

  /** An avoiding fish keeps avoiding while the cursor is within 150 and
      goes back to IDLING as soon as it is not. */
  lemma AvoidingFlees(b: Behaviour, x: real, dt: real, d: Draws, env: Env)
    ensures var r := AvoidingSpec(b, x, dt, d, env);
      if DistanceSquared(x, b.y, env.mouseX, env.mouseY) < AVOID_RANGE_SQ then
        && r.0.state == b.state && r.1 == d
        && r.0.targetX == env.mouseX && r.0.targetY == env.mouseY
      else r.0.state == Idling && 0.3 <= r.0.targetSpeed < 1.3 && r.1 == d.Skip(2)
  {
  }

  /** A target that is no longer in `foods` still has its position read:
      the fish takes it as its target point and ends up IDLING, or EATING
      when it is within 15 of it. */
  lemma StaleTargetStillRead(b: Behaviour, x: real, elems: seq<Food>, pos: (real, real), dt: real, d: Draws, env: Env)
    requires RefIndex(elems, b.targetObj) == -1
    ensures var r := MovingSpec(b, x, elems, pos, dt, d, env).0;
      && (r.targetX, r.targetY) == pos
      && (r.state == Idling || r.state == Eating)
      && (r.state == Eating <==> DistanceSquared(x, b.y, r.targetX, r.targetY) <= EAT_RANGE_SQ)
  {
  }

  /** A fish whose target is still in `foods` starts EATING exactly when it
      is within 15 of it, and otherwise stays on its way. */
  lemma MovingReachesTarget(b: Behaviour, x: real, elems: seq<Food>, pos: (real, real), dt: real, d: Draws, env: Env)
    requires b.state == MovingToTarget && RefIndex(elems, b.targetObj) != -1
    ensures var r := MovingSpec(b, x, elems, pos, dt, d, env).0;
      && (r.targetX, r.targetY) == pos
      && (r.state == Eating <==> DistanceSquared(x, b.y, r.targetX, r.targetY) <= EAT_RANGE_SQ)
      && (r.state != Eating ==> r.state == MovingToTarget && r.targetObj == b.targetObj)
  {
  }

  /** Eating takes exactly one pellet out of a non-empty `foods` and sends
      the fish back to IDLING: its own target when that is still there
      (the other pellets keep their order), otherwise the last pellet. */
  lemma EatingTakesOnePellet(b: Behaviour, elems: seq<Food>, d: Draws)
    requires |elems| > 0
    ensures var r := EatingSpec(b, elems, d);
      && r.0.state == Idling
      && |r.1| == |elems| - 1
      && (if b.targetObj.FoodRef? && b.targetObj.food in elems
          then multiset(r.1) == multiset(elems) - multiset{b.targetObj.food}
          else r.1 == elems[..|elems| - 1])
  {
    if b.targetObj.FoodRef? {
      SpliceIndexOf(elems, b.targetObj.food);
    }
  }

  /** Outside the tank a fish only turns back: handleStates does not run,
      so its state, timers, target, speed, `foods` and the random stream
      stay as they were. */
  lemma OutsideSkipsStates(b: Behaviour, x: real, deviation: real, elems: seq<Food>, dt: real, d: Draws, env: Env)
    requires Aimed(b) && OutsideRoom(x, b.y, env)
    ensures var r := NavigateSpec(b, x, deviation, elems, dt, d, env);
      && r.0.state == b.state && r.0.timer == b.timer && r.0.targetObj == b.targetObj
      && r.0.targetSpeed == b.targetSpeed && r.0.performingAction == b.performingAction
      && r.0.targetX == b.targetX && r.0.targetY == b.targetY
      && r.1 == elems && r.2 == d
  {
  }

  // ---------------------------------------------------------------------
  // Properties of handleStates as a whole

  /** handleStates keeps a well-formed fish well-formed. */
  lemma HandleKeepsWellFormed(b: Behaviour, x: real, deviation: real, elems: seq<Food>, dt: real, d: Draws, env: Env)
    requires WellFormed(b)
    ensures WellFormed(HandleSpec(b, x, deviation, elems, dt, d, env).0)
  {
    var (b1, e1, d1) := BeforeSwitch(b, x, elems, dt, d, env);
    assert WellFormed(b1);
  }

  /** One handleStates never starts FOLLOWING, AVOIDING or FIGHTING (only
      the mouse does that), and only an idling fish starts RESTING. */
  lemma HandleStaysInGraph(b: Behaviour, x: real, deviation: real, elems: seq<Food>, dt: real, d: Draws, env: Env)
    requires Aimed(b)
    ensures MayFollow(b.state, HandleSpec(b, x, deviation, elems, dt, d, env).0.state)
  {
    var (b1, e1, d1) := BeforeSwitch(b, x, elems, dt, d, env);
    assert b1.state == b.state || b1.state == MovingToTarget;
  }

  /** Without pellets a fish that is not already on its way to one never
      starts towards food or eating, and `foods` stays empty. */
  lemma NoFoodNoHunt(b: Behaviour, x: real, deviation: real, dt: real, d: Draws, env: Env)
    requires Aimed(b) && b.state != MovingToTarget
    ensures var r := HandleSpec(b, x, deviation, [], dt, d, env);
      r.0.state != MovingToTarget && r.0.state != Eating && r.1 == []
  {
    var (b1, e1, d1) := BeforeSwitch(b, x, [], dt, d, env);
    assert b1.state == b.state && e1 == [];
  }

  /** Of the cases of the switch, only EATING touches `foods`, splicing
      out the pellet aimed at. */
  lemma SwitchFoods(b: Behaviour, x: real, deviation: real, elems: seq<Food>, pos: (real, real), dt: real, d: Draws, env: Env)
    ensures SwitchSpec(b, x, deviation, elems, pos, dt, d, env).1
      == if b.state == Eating then Splice1(elems, RefIndex(elems, b.targetObj)) else elems
  {
  }

  /** handleStates takes at most one pellet out of `foods` and puts none in. */
  lemma HandleEatsAtMostOne(b: Behaviour, x: real, deviation: real, elems: seq<Food>, dt: real, d: Draws, env: Env)
    requires Aimed(b)
    ensures var r := HandleSpec(b, x, deviation, elems, dt, d, env);
      multiset(r.1) <= multiset(elems) && |elems| - 1 <= |r.1| <= |elems|
  {
    var (b1, e1, d1) := BeforeSwitch(b, x, elems, dt, d, env);
    var pos := ObjPos(b1.targetObj, b1.targetX, b1.targetY);
    assert |e1| == |multiset(e1)| == |multiset(elems)| == |elems|;
    SwitchFoods(b1, x, deviation, e1, pos, dt, d1, env);
    assert HandleSpec(b, x, deviation, elems, dt, d, env) == SwitchSpec(b1, x, deviation, e1, pos, dt, d1, env);
  }

  /** When the food timer fires it is rearmed to exactly 2, and no case of
      the switch touches it afterwards. */
  lemma FoodTimerRearmed(b: Behaviour, x: real, deviation: real, elems: seq<Food>, dt: real, d: Draws, env: Env)
    requires Aimed(b) && Tick(b.timer, CheckForFoodTimer, dt).1 == Fired
    ensures var r := HandleSpec(b, x, deviation, elems, dt, d, env).0;
      r.timer.Get(CheckForFoodTimer) == Some(2.0)
  {
    var (b1, e1, d1) := BeforeSwitch(b, x, elems, dt, d, env);
  }
}
