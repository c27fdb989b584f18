/** A pellet of food (src/Food.js) and the shared `foods` array of the
    program (src/main.js:22), which a pellet leaves once it has sunk below
    the floor of the tank and a fish leaves by eating from. */
module Foods {
  import opened Host
  import opened Js

  /** The speed a pellet is dropped with. */
  const DROP_SPEED: real := 3.0
  /** How much speed a pellet loses per frame while it is still fast. */
  const DECELERATION: real := 0.03
  /** At or below this speed a pellet stops slowing down. */
  const SINK_SPEED: real := 0.5

  /** One `Food.update` step of a pellet's height and speed: it moves down by
      its speed, then slows down while faster than SINK_SPEED. */
  function Fall(y: real, speed: real, deceleration: real, dt: real): (r: (real, real))
    ensures speed >= 0.0 && dt >= 0.0 ==> r.0 >= y
    ensures deceleration * dt >= 0.0 ==> r.1 <= speed
    ensures speed <= SINK_SPEED ==> r.1 == speed
    ensures speed > SINK_SPEED ==> r.1 > SINK_SPEED - deceleration * dt
    ensures r.0 - y == speed * dt
    ensures speed > SINK_SPEED ==> speed - r.1 == deceleration * dt
  {
    var next := if speed > SINK_SPEED then speed - deceleration * dt else speed;
    if speed >= 0.0 && dt >= 0.0 then
      MulNonNeg(speed, dt);
      (y + speed * dt, next)
    else
      (y + speed * dt, next)
  }

  /** n consecutive updates of a pellet that stays in the tank. */
  function FallN(y: real, speed: real, deceleration: real, dt: real, n: nat): (real, real)
    decreases n
  {
    if n == 0 then (y, speed)
    else
      var r := Fall(y, speed, deceleration, dt);
      FallN(r.0, r.1, deceleration, dt, n - 1)
  }

  /** Over any number of updates with a small enough slow-down per frame, a
      pellet never rises, never speeds up, and never drops below the smaller
      of its starting speed and SINK_SPEED - deceleration * dt. */
  lemma {:induction false} FallNMonotone(y: real, speed: real, deceleration: real, dt: real, n: nat)
    requires dt >= 0.0 && deceleration >= 0.0 && deceleration * dt <= SINK_SPEED
    requires speed >= 0.0
    ensures FallN(y, speed, deceleration, dt, n).0 >= y
    ensures FallN(y, speed, deceleration, dt, n).1 <= speed
    ensures FallN(y, speed, deceleration, dt, n).1 >= Min(speed, SINK_SPEED - deceleration * dt)
    decreases n
  {
    MulNonNeg(deceleration, dt);
    if n > 0 {
      var r := Fall(y, speed, deceleration, dt);
      assert r.1 >= Min(speed, SINK_SPEED - deceleration * dt);
      FallNMonotone(r.0, r.1, deceleration, dt, n - 1);
    }
  }

  /** Once a pellet is at or below SINK_SPEED its speed is fixed for good,
      and it sinks by exactly that speed every frame. */
  lemma {:induction false} FallNAtSinkSpeed(y: real, speed: real, deceleration: real, dt: real, n: nat)
    requires speed <= SINK_SPEED
    ensures FallN(y, speed, deceleration, dt, n) == (y + (n as real) * (speed * dt), speed)
    decreases n
  {
    var step := speed * dt;
    if n > 0 {
      var y1, m: nat := y + step, n - 1;
      assert Fall(y, speed, deceleration, dt) == (y1, speed);
      FallNAtSinkSpeed(y1, speed, deceleration, dt, m);
      assert (n as real) * step == (m as real) * step + step;
      assert FallN(y, speed, deceleration, dt, n) == FallN(y1, speed, deceleration, dt, m);
      assert FallN(y1, speed, deceleration, dt, m) == (y1 + (m as real) * (speed * dt), speed);
      assert y1 + (m as real) * (speed * dt) == y + (n as real) * (speed * dt);
    } else {
      assert FallN(y, speed, deceleration, dt, n) == (y, speed);
      assert (n as real) * step == 0.0;
    }
  }

  class Food {
    const x: real
    var y: real
    var speed: real
    const deceleration: real
    /** The rotation the pellet is drawn with. */
    const angle: real
    /** The `distance` property a fish's nearestInstance attaches to a pellet
        (kept here as a squared distance), None while it is absent. */
    var distance: Option<real>

    /** `new Food(x, y)`: dropped at DROP_SPEED, with a random drawing angle. */
    constructor (x: real, y: real, rng: Rng)
      modifies rng`used
      ensures this.x == x && this.y == y
      ensures speed == DROP_SPEED && deceleration == DECELERATION
      ensures angle == rng.source(old(rng.used)) * 360.0
      ensures rng.used == old(rng.used) + 1
      ensures distance.None?
    {
      var r := rng.Random();
      this.x := x;
      this.y := y;
      speed := DROP_SPEED;
      deceleration := DECELERATION;
      angle := (r as real) * 360.0;
      distance := None;
    }

    /** Below the floor: strictly lower than the tank's height. */
    predicate IsOutsideRoom(env: Env)
      reads this`y
    {
      y > env.height
    }

    /** `update(deltaTime)`: fall one step; a pellet that ends up below the
        floor splices `foods` at its own index (at -1, the last element, when
        it is not in the array). */
    method Update(dt: real, foods: FoodArray, env: Env)
      modifies this`y, this`speed, foods`elems
      ensures (y, speed) == Fall(old(y), old(speed), deceleration, dt)
      ensures foods.elems == if y > env.height
        then Splice1(old(foods.elems), IndexOf(old(foods.elems), this))
        else old(foods.elems)
    {
      y := y + speed * dt;
      if speed > SINK_SPEED {
        speed := speed - deceleration * dt;
      }
      if IsOutsideRoom(env) {
        var index := IndexOf(foods.elems, this);
        foods.elems := Splice1(foods.elems, index);
      }
    }
  }

  /** The program's shared `foods` array. */
  class FoodArray {
    var elems: seq<Food>

    constructor ()
      ensures elems == []
    {
      elems := [];
    }

    /** The pellets currently in the array. */
    function Members(): set<Food>
      reads this
    {
      set f | f in elems
    }
  }
}
