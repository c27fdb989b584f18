/** The Fish class of src/Fish.js: its fields, updated in place, and its
    methods, each proved to leave the fish (and the `foods` array and the
    random stream) as the matching function of FishStates says. */
module FishClass {
  import opened Host
  import opened Js
  import opened Misc
  import opened Foods
  import opened Fishes
  import opened FishStates

  class Fish {
    /** The value of the class-wide counter Fish.ID when the fish was made. */
    const id: nat
    var x: real
    var y: real
    var speed: real
    var targetSpeed: real
    const acceleration: real
    const deceleration: real
    var direction: real
    /** Degrees by which a following fish aims beside the cursor. */
    const directionDeviation: real
    var wiggleSpeed: real
    var wiggleAngle: real
    var angle: real
    var targetAngle: real
    const xScale: real
    const yScale: real
    var state: State
    var targetX: real
    var targetY: real
    var targetObj: TargetRef
    var timer: Timers
    var performingAction: bool

    /** The fields handleStates may change, as a value. */
    function Snapshot(): Behaviour
      reads this`y, this`angle, this`targetAngle, this`targetX, this`targetY, this`targetObj,
        this`state, this`targetSpeed, this`wiggleSpeed, this`timer, this`performingAction
    {
      Behaviour(y, angle, targetAngle, targetX, targetY, targetObj, state, targetSpeed,
        wiggleSpeed, timer, performingAction)
    }

    ghost predicate Valid()
      reads this`y, this`angle, this`targetAngle, this`targetX, this`targetY, this`targetObj,
        this`state, this`targetSpeed, this`wiggleSpeed, this`timer, this`performingAction
    {
      WellFormed(Snapshot())
    }

    /** `new Fish(x, y)`: three draws for the deviation, the angle and the
        scale, two for changeState(IDLING), three for the timers. */
    constructor (id: nat, x: real, y: real, rng: Rng)
      modifies rng`used
      ensures Valid()
      ensures this.id == id && this.x == x && this.y == y
      ensures speed == 1.0 && acceleration == 0.05 && deceleration == 0.05
      ensures direction == 0.0 && wiggleAngle == 0.0 && targetAngle == 0.0
      ensures state == Idling && !performingAction
      ensures targetX == 0.0 && targetY == 0.0 && targetObj == NoTarget
      ensures var d := old(rng.Stream());
        && directionDeviation == Draw(-10.0, d.At(0), 20.0)
        && angle == d.At(1) * 360.0
        && xScale == Draw(0.15, d.At(2), 0.05) && yScale == xScale
        && targetSpeed == StateSpeed(Idling, d.At(3))
        && wiggleSpeed == WiggleSpeedFor(targetSpeed, d.At(4))
        && timer == StartingTimers(d.At(5), d.At(6), d.At(7))
        && rng.Stream() == d.Skip(8)
    {
      var r := rng.RandomN(8);
      this.id := id;
      this.x := x;
      this.y := y;
      speed := 1.0;
      acceleration := 0.05;
      deceleration := 0.05;
      direction := 0.0;
      directionDeviation := Draw(-10.0, r[0], 20.0);
      wiggleAngle := 0.0;
      angle := (r[1] as real) * 360.0;
      xScale := Draw(0.15, r[2], 0.05);
      yScale := Draw(0.15, r[2], 0.05);
      targetX := 0.0;
      targetY := 0.0;
      targetObj := NoTarget;
      targetAngle := 0.0;
      performingAction := false;
      // changeState(IDLING): the state, then setStateSpeed's two draws.
      state := Idling;
      var ts := StateSpeed(Idling, r[3]);
      targetSpeed := ts;
      wiggleSpeed := WiggleSpeedFor(ts, r[4]);
      // The three timers.
      timer := StartingTimers(r[5], r[6], r[7]);
    }

    /** `timerCountdown(name, deltaTime)`. */
    method TimerCountdown(name: TimerName, dt: real) returns (c: Countdown)
      modifies this`timer
      ensures (timer, c) == Tick(old(timer), name, dt)
    {
      if timer.Get(name).Some? && timer.Get(name).value > 0.0 {
        timer := timer.Set(name, Some(Decrement(timer.Get(name).value, dt)));
        c := Counting;
      } else if timer.Get(name).Some? {
        timer := timer.Set(name, None);
        c := Fired;
      } else {
        c := Disarmed;
      }
    }

    /** `setStateSpeed(s)`. */
    method SetStateSpeed(s: State, rng: Rng)
      modifies this`targetSpeed, this`wiggleSpeed, rng`used
      ensures (Snapshot(), rng.Stream()) == SetStateSpeedSpec(old(Snapshot()), s, old(rng.Stream()))
    {
      match s {
        case Idling =>
          var r: real := rng.Random();
          targetSpeed := Draw(0.3, r, 1.0);
        case Following =>
          var r: real := rng.Random();
          targetSpeed := Draw(2.0, r, 1.0);
        case Avoiding =>
          var r: real := rng.Random();
          targetSpeed := Draw(2.0, r, 2.0);
        case Resting => targetSpeed := 0.2;
        case MovingToTarget => targetSpeed := 2.0;
        case Eating => targetSpeed := 0.2;
        case Fighting => targetSpeed := 2.0;
      }
      var r: real := rng.Random();
      wiggleSpeed := WiggleSpeedFor(targetSpeed, r);
    }

    /** `changeState(s)`. */
    method ChangeState(s: State, rng: Rng)
      modifies this`state, this`targetSpeed, this`wiggleSpeed, this`performingAction, rng`used
      ensures (Snapshot(), rng.Stream()) == ChangeStateSpec(old(Snapshot()), s, old(rng.Stream()))
    {
      state := s;
      SetStateSpeed(s, rng);
      performingAction := false;
    }

    /** `isOutsideRoom()`. */
    predicate IsOutsideRoom(env: Env)
      reads this`x, this`y
    {
      OutsideRoom(x, y, env)
    }

    /** `isOutsideRadius()`: farther than 50 from the cursor. A fish more
        than 50 away along either axis is outside; one within 35 along both
        axes is inside. */
    predicate IsOutsideRadius(env: Env): (r: bool)
      reads this`x, this`y
      ensures Abs(x - env.mouseX) > 50.0 || Abs(y - env.mouseY) > 50.0 ==> r
      ensures Abs(x - env.mouseX) <= 35.0 && Abs(y - env.mouseY) <= 35.0 ==> !r
    {
      DistanceBox(x, y, env.mouseX, env.mouseY, 50.0);
      DistanceBox(x, y, env.mouseX, env.mouseY, 35.0);
      DistanceSquared(x, y, env.mouseX, env.mouseY) > FOLLOW_RANGE_SQ
    }

    /** `rock(deltaTime)`. */
    method Rock(dt: real, env: Env)
      modifies this`targetAngle, this`angle, this`y
      ensures Snapshot() == RockSpec(old(Snapshot()), dt, env)
    {
      var rockValue := Fishes.AnimationWave(0.1, 3.0, env);
      var ta := angle + rockValue;
      var a := SmoothRotation(angle, ta, ROTATION_SPEED_1 * dt, env);
      var drift := rockValue * dt;
      RockStep(Snapshot(), dt, env, drift);
      targetAngle, angle, y := ta, a, y + drift;
    }

    /** `rattle()`: a quick jitter of the angle. */
    method Rattle(env: Env)
      modifies this`angle
      ensures angle == old(angle) + Fishes.AnimationWave(0.1, 0.02, env)
      ensures -0.1 <= angle - old(angle) <= 0.1
    {
      angle := angle + Fishes.AnimationWave(0.1, 0.02, env);
    }

    /** The IDLING case of handleStates. */
    method Idle(dt: real, env: Env, rng: Rng)
      modifies this`angle, this`targetAngle, this`targetX, this`targetY, this`state,
        this`targetSpeed, this`wiggleSpeed, this`timer, this`performingAction, rng`used
      ensures (Snapshot(), rng.Stream()) == IdlingSpec(old(Snapshot()), x, dt, old(rng.Stream()), env)
    {
      ghost var b0, d0 := Snapshot(), rng.Stream();
      targetAngle := FishStates.PointTowards(x, y, targetX, targetY, env);
      angle := SmoothRotation(angle, targetAngle, ROTATION_SPEED_1 * dt, env);
      ghost var b1 := Snapshot();
      NewPath(dt, env, rng);
      ghost var b2, d2 := Snapshot(), rng.Stream();
      assert (b2, d2) == NewPathSpec(b1, dt, d0, env);
      assert IdlingSpec(b0, x, dt, d0, env) == FallAsleepSpec(b2, dt, d2);
      FallAsleep(dt, rng);
    }

    method NewPath(dt: real, env: Env, rng: Rng)
      modifies this`targetX, this`targetY, this`targetSpeed, this`wiggleSpeed, this`timer, rng`used
      ensures (Snapshot(), rng.Stream()) == NewPathSpec(old(Snapshot()), dt, old(rng.Stream()), env)
    {
      var fired := TimerCountdown(ChangePathTimer, dt);
      if fired == Fired {
        ghost var b1, d1 := Snapshot(), rng.Stream();
        SetStateSpeed(Idling, rng);
        ghost var bs, ds := Snapshot(), rng.Stream();
        assert (bs, ds) == SetStateSpeedSpec(b1, Idling, d1);
        var rx: real := rng.Random();
        var ry: real := rng.Random();
        var rt: real := rng.Random();
        assert rx == ds.At(0) && ry == ds.At(1) && rt == ds.At(2) && rng.Stream() == ds.Skip(3);
        targetX := RandomCoordinate(rx, env.width);
        targetY := RandomCoordinate(ry, env.height);
        timer := timer.Set(ChangePathTimer, Some(Draw(1.0, rt, 3.0)));
        assert Snapshot() == bs.(targetX := targetX, targetY := targetY, timer := timer);
      }
    }

    method FallAsleep(dt: real, rng: Rng)
      modifies this`state, this`targetSpeed, this`wiggleSpeed, this`timer, this`performingAction, rng`used
      ensures (Snapshot(), rng.Stream()) == FallAsleepSpec(old(Snapshot()), dt, old(rng.Stream()))
    {
      var fired := TimerCountdown(RestingTimer, dt);
      if fired == Fired {
        ChangeState(Resting, rng);
        var r: real := rng.Random();
        timer := timer.Set(RestingTimer, Some(Draw(2.0, r, 2.0)));
      }
    }

    /** The FOLLOWING case of handleStates. */
    method Follow(dt: real, env: Env)
      modifies this`angle, this`targetAngle, this`targetX, this`targetY
      ensures Snapshot() == FollowingSpec(old(Snapshot()), x, directionDeviation, dt, env)
    {
      if IsOutsideRadius(env) {
        targetX := env.mouseX;
        targetY := env.mouseY;
        targetAngle := FishStates.PointTowards(x, y, targetX, targetY, env);
        angle := SmoothRotation(angle, targetAngle + DegToRad(directionDeviation), ROTATION_SPEED_2 * dt, env);
      }
    }

    /** The AVOIDING case of handleStates. */
    method Avoid(dt: real, env: Env, rng: Rng)
      modifies this`angle, this`targetAngle, this`targetX, this`targetY, this`state,
        this`targetSpeed, this`wiggleSpeed, this`performingAction, rng`used
      ensures (Snapshot(), rng.Stream()) == AvoidingSpec(old(Snapshot()), x, dt, old(rng.Stream()), env)
    {
      if DistanceSquared(x, y, env.mouseX, env.mouseY) < AVOID_RANGE_SQ {
        targetX := env.mouseX;
        targetY := env.mouseY;
        targetAngle := FishStates.PointTowards(x, y, targetX, targetY, env) - 180.0;
        angle := SmoothRotation(angle, targetAngle, ROTATION_SPEED_2 * dt, env);
      } else {
        ChangeState(Idling, rng);
      }
    }

    /** The RESTING case of handleStates. */
    method Rest(dt: real, env: Env, rng: Rng)
      modifies this`angle, this`targetAngle, this`y, this`state,
        this`targetSpeed, this`wiggleSpeed, this`timer, this`performingAction, rng`used
      ensures (Snapshot(), rng.Stream()) == RestingSpec(old(Snapshot()), dt, old(rng.Stream()), env)
    {
      Rock(dt, env);
      var fired := TimerCountdown(RestingTimer, dt);
      if fired == Fired {
        ChangeState(Idling, rng);
        var r: real := rng.Random();
        timer := timer.Set(RestingTimer, Some(Draw(20.0, r, 10.0)));
      }
    }

    /** The MOVING_TO_TARGET case of handleStates. */
    method MoveToTarget(dt: real, foods: FoodArray, env: Env, rng: Rng)
      requires !targetObj.NoTarget?
      modifies this`angle, this`targetAngle, this`targetX, this`targetY, this`state,
        this`targetSpeed, this`wiggleSpeed, this`performingAction, rng`used
      ensures (Snapshot(), rng.Stream())
        == old(MovingSpec(Snapshot(), x, foods.elems, TargetPos(targetObj), dt, rng.Stream(), env))
    {
      if RefIndex(foods.elems, targetObj) == -1 {
        ChangeState(Idling, rng);
      }
      assert old(MovingSpec(Snapshot(), x, foods.elems, TargetPos(targetObj), dt, rng.Stream(), env))
        == ApproachSpec(Snapshot(), x, TargetPos(targetObj), dt, rng.Stream(), env);
      Approach(dt, env, rng);
    }

    /** The rest of the MOVING_TO_TARGET case, once the target is known. */
    method Approach(dt: real, env: Env, rng: Rng)
      requires !targetObj.NoTarget?
      modifies this`angle, this`targetAngle, this`targetX, this`targetY, this`state,
        this`targetSpeed, this`wiggleSpeed, this`performingAction, rng`used
      ensures (Snapshot(), rng.Stream()) == old(ApproachSpec(Snapshot(), x, TargetPos(targetObj), dt, rng.Stream(), env))
    {
      var (tx, ty) := TargetPos(targetObj);
      targetX := tx;
      targetY := ty;
      targetAngle := FishStates.PointTowards(x, y, targetX, targetY, env);
      angle := SmoothRotation(angle, targetAngle, ROTATION_SPEED_3 * dt, env);
      var distanceToTarget := DistanceSquared(x, y, tx, ty);
      if distanceToTarget < RATTLE_RANGE_SQ {
        Rattle(env);
        if distanceToTarget <= EAT_RANGE_SQ {
          ChangeState(Eating, rng);
        }
      }
    }

    /** The EATING case of handleStates. */
    method Eat(foods: FoodArray, rng: Rng)
      modifies this`state, this`targetSpeed, this`wiggleSpeed, this`performingAction, foods`elems, rng`used
      ensures (Snapshot(), foods.elems, rng.Stream()) == EatingSpec(old(Snapshot()), old(foods.elems), old(rng.Stream()))
    {
      var index := RefIndex(foods.elems, targetObj);
      foods.elems := Splice1(foods.elems, index);
      ChangeState(Idling, rng);
    }

    /** `nearestInstance(foods)`: give every pellet a `distance`, sort the
        array in place, remove the first pellet's `distance` and return it. */
    method NearestInstance(arr: FoodArray, env: Env) returns (nearest: Food)
      requires |arr.elems| > 0
      modifies arr`elems, arr.Members()`distance
      ensures arr.elems == old(Sorted(arr.elems, x, y, env))
      ensures nearest == arr.elems[0] && nearest in old(arr.elems)
      ensures forall f :: f in old(arr.elems) ==>
        f.distance == if f == nearest then None else Some(DistanceSquared(x, y, f.x, f.y))
    {
      MeasureDistances(arr, env);
      nearest := TakeNearest(arr, env);
    }

    /** The rest of nearestInstance, once every pellet carries its distance:
        sort, then take the first pellet and delete its distance. */
    method TakeNearest(arr: FoodArray, env: Env) returns (nearest: Food)
      requires |arr.elems| > 0 && forall f | f in arr.elems :: Measured(f)
      modifies arr`elems, arr.Members()`distance
      ensures arr.elems == old(Sorted(arr.elems, x, y, env))
      ensures nearest == arr.elems[0] && nearest in old(arr.elems)
      ensures forall f :: f in old(arr.elems) ==>
        f.distance == if f == nearest then None else Some(DistanceSquared(x, y, f.x, f.y))
    {
      ghost var e0 := arr.elems;
      SortByDistance(arr, env);
      nearest := arr.elems[0];
      ClearDistance(nearest, e0);
    }

    /** `delete nearest.distance`, on pellets that all carry their distance. */
    method ClearDistance(nearest: Food, ghost foods: seq<Food>)
      requires forall f | f in foods :: Measured(f)
      modifies nearest`distance
      ensures forall f :: f in foods ==>
        f.distance == if f == nearest then None else Some(DistanceSquared(x, y, f.x, f.y))
    {
      label measured:
      nearest.distance := None;
      forall f | f in foods && f != nearest
        ensures Measured(f)
      {
        assert old@measured(Measured(f));
      }
    }

    /** Pellet f carries its squared distance to this fish. */
    ghost predicate Measured(f: Food)
      reads this, f
    {
      f.distance == Some(DistanceSquared(x, y, f.x, f.y))
    }

    /** The sort of nearestInstance, which reorders `foods` in place. */
    method SortByDistance(arr: FoodArray, env: Env)
      requires |arr.elems| > 0
      modifies arr`elems
      ensures arr.elems == old(Sorted(arr.elems, x, y, env))
      ensures arr.elems[0] in old(arr.elems)
    {
      ghost var elems := arr.elems;
      arr.elems := Sorted(arr.elems, x, y, env);
      assert arr.elems[0] in multiset(elems);
    }

    /** The forEach of nearestInstance: every pellet gets its (squared)
        distance to the fish. */
    method MeasureDistances(arr: FoodArray, env: Env)
      modifies arr.Members()`distance
      ensures forall f :: f in arr.elems ==> f.distance == Some(DistanceSquared(x, y, f.x, f.y))
      ensures Sorted(arr.elems, x, y, env) == old(Sorted(arr.elems, x, y, env))
    {
      var i := 0;
      while i < |arr.elems|
        invariant 0 <= i <= |arr.elems|
        invariant forall f :: f in arr.elems[..i] ==> Measured(f)
      {
        var obj := arr.elems[i];
        obj.distance := Some(DistanceSquared(x, y, obj.x, obj.y));
        assert arr.elems[..i + 1] == arr.elems[..i] + [obj];
        i := i + 1;
      }
      assert arr.elems[..i] == arr.elems;
    }

    /** `checkForFood()`. */
    method CheckForFood(foods: FoodArray, env: Env, rng: Rng)
      modifies this`targetObj, this`state, this`targetSpeed, this`wiggleSpeed, this`performingAction,
        foods`elems, foods.Members()`distance, rng`used
      ensures (Snapshot(), foods.elems, rng.Stream())
        == old(CheckForFoodSpec(Snapshot(), x, foods.elems, rng.Stream(), env))
    {
      if |foods.elems| <= 0 {
        return;
      }
      var nearest := NearestInstance(foods, env);
      assert old(CheckForFoodSpec(Snapshot(), x, foods.elems, rng.Stream(), env))
        == var r := TakeTargetSpec(Snapshot(), x, nearest, rng.Stream()); (r.0, foods.elems, r.1);
      TakeTarget(nearest, rng);
    }

    /** The end of checkForFood, once the nearest pellet is known. */
    method TakeTarget(nearest: Food, rng: Rng)
      modifies this`targetObj, this`state, this`targetSpeed, this`wiggleSpeed, this`performingAction, rng`used
      ensures (Snapshot(), rng.Stream()) == old(TakeTargetSpec(Snapshot(), x, nearest, rng.Stream()))
    {
      if DistanceSquared(x, y, nearest.x, nearest.y) <= FOOD_RANGE_SQ {
        targetObj := FoodRef(nearest);
        ChangeState(MovingToTarget, rng);
        performingAction := true;
      }
    }

    /** `handleStates(deltaTime)`. */
    method HandleStates(dt: real, foods: FoodArray, env: Env, rng: Rng)
      requires Aimed(Snapshot())
      modifies this`y, this`angle, this`targetAngle, this`targetX, this`targetY, this`targetObj,
        this`state, this`targetSpeed, this`wiggleSpeed, this`timer, this`performingAction,
        foods`elems, foods.Members()`distance, rng`used
      ensures (Snapshot(), foods.elems, rng.Stream())
        == old(HandleSpec(Snapshot(), x, directionDeviation, foods.elems, dt, rng.Stream(), env))
    {
      ghost var b0, e0, d0 := Snapshot(), foods.elems, rng.Stream();
      FoodTimer(dt, foods, env, rng);
      ghost var b1, e1, d1 := Snapshot(), foods.elems, rng.Stream();
      assert (b1, e1, d1) == old(BeforeSwitch(b0, x, e0, dt, d0, env));
      assert b1.targetObj.FoodRef? ==> b1.targetObj.food.y == old(b1.targetObj.food.y);
      Switch(dt, foods, env, rng);
    }

    /** The food timer at the head of handleStates. */
    method FoodTimer(dt: real, foods: FoodArray, env: Env, rng: Rng)
      requires Aimed(Snapshot())
      modifies this`targetObj, this`state, this`targetSpeed, this`wiggleSpeed, this`timer, this`performingAction,
        foods`elems, foods.Members()`distance, rng`used
      ensures (Snapshot(), foods.elems, rng.Stream())
        == old(BeforeSwitch(Snapshot(), x, foods.elems, dt, rng.Stream(), env))
      ensures  Aimed(Snapshot())
    {
      var fired := TimerCountdown(CheckForFoodTimer, dt);
      if fired == Fired {
        CheckForFood(foods, env, rng);
        timer := timer.Set(CheckForFoodTimer, Some(2.0));
      }
    }

    /** The switch of handleStates. */
    method Switch(dt: real, foods: FoodArray, env: Env, rng: Rng)
      requires Aimed(Snapshot())
      modifies this`y, this`angle, this`targetAngle, this`targetX, this`targetY,
        this`state, this`targetSpeed, this`wiggleSpeed, this`timer, this`performingAction,
        foods`elems, rng`used
      ensures (Snapshot(), foods.elems, rng.Stream())
        == old(SwitchSpec(Snapshot(), x, directionDeviation, foods.elems, ObjPos(targetObj, targetX, targetY),
          dt, rng.Stream(), env))
    {
      match state {
        case Idling => Idle(dt, env, rng);
        case Following => Follow(dt, env);
        case Avoiding => Avoid(dt, env, rng);
        case Resting => Rest(dt, env, rng);
        case MovingToTarget => MoveToTarget(dt, foods, env, rng);
        case Eating => Eat(foods, rng);
        case Fighting =>
      }
    }

    /** `update(deltaTime)`: smooth the wiggle, ease the speed, steer back
        into the tank when outside it or run handleStates otherwise, then
        move along the new direction. */
    method Update(dt: real, foods: FoodArray, env: Env, rng: Rng)
      requires Valid()
      modifies this, foods`elems, foods.Members()`distance, rng`used
      ensures Valid()
      ensures wiggleAngle == Lerp(old(wiggleAngle), Wiggle(old(targetSpeed), old(wiggleSpeed), env), WIGGLE_SMOOTHING * dt)
      ensures speed == Ease(old(speed), old(targetSpeed), acceleration, deceleration, dt)
      ensures var r := old(NavigateSpec(Snapshot(), x, directionDeviation, foods.elems, dt, rng.Stream(), env));
        && Snapshot() == r.0.(y := y)
        && foods.elems == r.1
        && rng.Stream() == r.2
        && direction == r.0.angle + DegToRad(90.0)
        && (x, y) == Advance(old(x), r.0.y, speed, dt, direction, env)
    {
      // The first two statements of update: the new wiggle angle and speed,
      // from the target speed before handleStates changes it. handleStates
      // neither reads nor writes either field, so they are stored after it.
      var wiggle := Lerp(wiggleAngle, Wiggle(targetSpeed, wiggleSpeed, env), WIGGLE_SMOOTHING * dt);
      var newSpeed := speed;
      if speed < targetSpeed {
        newSpeed := speed + acceleration * dt;
      } else if speed > 0.0 {
        newSpeed := speed - deceleration * dt;
      }
      Navigate(dt, foods, env, rng);
      ghost var b1 := Snapshot();
      wiggleAngle, speed := wiggle, newSpeed;
      Move(dt, env);
    }

    /** The middle of update: steer back when outside the tank, run
        handleStates otherwise. */
    method Navigate(dt: real, foods: FoodArray, env: Env, rng: Rng)
      requires Valid()
      modifies this`y, this`angle, this`targetAngle, this`targetX, this`targetY, this`targetObj,
        this`state, this`targetSpeed, this`wiggleSpeed, this`timer, this`performingAction,
        foods`elems, foods.Members()`distance, rng`used
      ensures Valid()
      ensures (Snapshot(), foods.elems, rng.Stream())
        == old(NavigateSpec(Snapshot(), x, directionDeviation, foods.elems, dt, rng.Stream(), env))
    {
      if IsOutsideRoom(env) {
        Steer(dt, env);
      } else {
        HandleKeepsWellFormed(Snapshot(), x, directionDeviation, foods.elems, dt, rng.Stream(), env);
        HandleStates(dt, foods, env, rng);
      }
    }

    /** The out-of-room branch of update. */
    method Steer(dt: real, env: Env)
      modifies this`targetAngle, this`angle
      ensures Snapshot() == SteerSpec(old(Snapshot()), x, dt, env)
    {
      targetAngle := FishStates.PointTowards(x, y, env.width / 2.0, env.height / 2.0, env);
      angle := SmoothRotation(angle, targetAngle, RETURN_ROTATION * dt, env);
    }

    /** The last lines of update: swim along the new direction. */
    method Move(dt: real, env: Env)
      modifies this`direction, this`x, this`y
      ensures direction == angle + DegToRad(90.0)
      ensures (x, y) == Advance(old(x), old(y), speed, dt, direction, env)
      ensures Snapshot() == old(Snapshot()).(y := y)
    {
      direction := angle + DegToRad(90.0);
      var p := Advance(x, y, speed, dt, direction, env);
      x, y := p.0, p.1;
    }
  }
}
