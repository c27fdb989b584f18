/** The simulation's registry (src/main.js): the shared arrays of fish,
    food and enemies, the functions that spawn into and remove from them,
    the periodic schooling of idle fish and the mouse handlers' broadcast of
    a state to every fish. */
module World {
  import opened Host
  import opened Js
  import opened Misc
  import opened Foods
  import opened Fishes
  import opened FishStates
  import opened FishClass

  const FISH_MARGIN: real := 100.0
  const FOOD_MARGIN: real := 50.0
  const ENEMY_MARGIN: real := 100.0
  /** New food starts just above the top of the tank. */
  const FOOD_START_Y: real := -8.0

  /** Math.random() draws per spawned fish: its two coordinates and the
      eight of `new Fish`. */
  const FISH_DRAWS: nat := 10
  /** Per pellet: the x coordinate and the angle drawn by `new Food`. */
  const FOOD_DRAWS: nat := 2
  /** Per enemy: the x coordinate, the choice of edge and the choice of kind. */
  const ENEMY_DRAWS: nat := 3
  /** The fish the tank starts with. */
  const INITIAL_FISH: nat := 20

  /** `margin + (Math.random() * extent - margin * 2)`, the spawn coordinate
      (as written, the result runs from -margin to extent - margin, not from
      margin to extent - margin). */
  function SpawnCoordinate(margin: real, r: Prob, extent: Size): (v: real)
    ensures -margin <= v <= extent - margin
    ensures extent > 0.0 ==> v < extent - margin
  {
    margin + (RandomCoordinate(r, extent) - margin * 2.0)
  }

  /** Enemy1 and Enemy2 are not part of this model: an enemy is recorded
      by the class the program constructs and the position it passes. */
  datatype EnemyKind = Enemy1 | Enemy2
  datatype EnemySpawn = EnemySpawn(kind: EnemyKind, x: real, y: real)

  /** The enemy the k-th round of spawnEnemy records. */
  function EnemyAt(d: Draws, k: nat, env: Env): (e: EnemySpawn)
    ensures e.y == -ENEMY_MARGIN || e.y == env.height + ENEMY_MARGIN
    ensures -ENEMY_MARGIN <= e.x <= env.width - ENEMY_MARGIN
    ensures e.kind == Enemy1 <==> d.At(ENEMY_DRAWS * k + 2) < 0.8
  {
    var x := SpawnCoordinate(ENEMY_MARGIN, d.At(ENEMY_DRAWS * k), env.width);
    var y := Choose(-ENEMY_MARGIN, env.height + ENEMY_MARGIN, d.At(ENEMY_DRAWS * k + 1));
    EnemySpawn(if d.At(ENEMY_DRAWS * k + 2) < 0.8 then Enemy1 else Enemy2, x, y)
  }

  /** The fish the k-th round of spawnFish makes, given the counter Fish.ID
      and the stream when the call began. */
  ghost predicate SpawnedFish(f: Fish, k: nat, id0: nat, d: Draws, env: Env)
    reads f
  {
    && f.id == id0 + k
    && f.x == SpawnCoordinate(FISH_MARGIN, d.At(FISH_DRAWS * k), env.width)
    && f.y == SpawnCoordinate(FISH_MARGIN, d.At(FISH_DRAWS * k + 1), env.height)
    && f.state == Idling
    && f.Valid()
  }

  /** The pellet the k-th round of spawnFood drops. */
  predicate SpawnedFood(f: Food, k: nat, d: Draws, env: Env)
    reads f`y
  {
    && f.x == SpawnCoordinate(FOOD_MARGIN, d.At(FOOD_DRAWS * k), env.width)
    && f.y == FOOD_START_Y
  }

  /** A fish in state s, well formed unless s needs a target it lacks. */
  ghost predicate InState(f: Fish, s: State)
    reads f
  {
    f.state == s && (s != MovingToTarget ==> f.Valid())
  }

  /** A fish fleeing the cursor point, with a speed that fits. */
  ghost predicate Avoids(f: Fish, env: Env)
    reads f
  {
    f.state == Avoiding && f.targetObj == Point(env.mouseX, env.mouseY) && f.Valid()
  }

  /** A fish that Flee has left: fleeing the cursor, its action over. */
  ghost predicate Fleeing(f: Fish, env: Env)
    reads f
  {
    Avoids(f, env) && !f.performingAction
  }

  /** The snapshots of the fish of fs, in order. */
  ghost function Snapshots(fs: seq<Fish>): (r: seq<Behaviour>)
    reads set f | f in fs
    ensures |r| == |fs| && forall i :: 0 <= i < |fs| ==> r[i] == fs[i].Snapshot()
  {
    seq(|fs|, i requires 0 <= i < |fs| reads set f | f in fs => fs[i].Snapshot())
  }

  /** Fish f, which had the snapshot b, was sent fleeing the cursor as the
      i-th of a forEach that started drawing from d. */
  ghost predicate FledBy(f: Fish, b: Behaviour, env: Env, d: Draws, i: nat)
    reads f
  {
    f.Snapshot() == ChangeStateSpec(b, Avoiding, d.Skip(i * (SpeedDraws(Avoiding) + 1))).0.(targetObj := Point(env.mouseX, env.mouseY))
  }

  /** Fish f still has the snapshot b. */
  ghost predicate Unchanged(f: Fish, b: Behaviour)
    reads f
  {
    f.Snapshot() == b
  }

  /** What changeState(s) guarantees of any fish it has dealt with. */
  ghost predicate Reached(f: Fish, s: State)
    reads f
  {
    InState(f, s) && !f.performingAction
  }

  /** Fish f is as changeState(s) leaves a fish that was b, when the call
      begins i rounds of setStateSpeed draws into the stream d. */
  ghost predicate ChangedBy(f: Fish, b: Behaviour, s: State, d: Draws, i: nat)
    reads f
  {
    f.Snapshot() == ChangeStateSpec(b, s, d.Skip(i * (SpeedDraws(s) + 1))).0
  }

  /** The module-level state of main.js. */
  class Tank {
    var fishes: seq<Fish>
    const foods: FoodArray
    var enemies: seq<EnemySpawn>
    /** Fish.ID, the class-wide counter of fish made so far. */
    var nextFishId: nat

    /** The module's initialisation: an empty `fishes`, then
        `spawnFish(20)`, then the empty enemy array beside the shared
        `foods`. */
    constructor (foods: FoodArray, nextFishId: nat, env: Env, rng: Rng)
      modifies rng`used
      ensures |fishes| == INITIAL_FISH && Distinct(fishes)
      ensures forall i :: 0 <= i < |fishes| ==>
        fresh(fishes[i]) && SpawnedFish(fishes[i], i, nextFishId, old(rng.Stream()), env)
      ensures this.nextFishId == nextFishId + INITIAL_FISH
      ensures rng.used == old(rng.used) + FISH_DRAWS * INITIAL_FISH
      ensures enemies == [] && this.foods == foods
    {
      fishes := [];
      enemies := [];
      this.foods := foods;
      this.nextFishId := nextFishId;
      new;
      SpawnFish(INITIAL_FISH as real, env, rng);
    }

    /** spawnFish(amount): amount rounds of two coordinates and `new Fish`,
        pushed in order. */
    method SpawnFish(amount: real, env: Env, rng: Rng)
      modifies this`fishes, this`nextFishId, rng`used
      ensures var n := LoopCount(amount);
        && |fishes| == |old(fishes)| + n
        && fishes[..|old(fishes)|] == old(fishes)
        && nextFishId == old(nextFishId) + n
        && rng.used == old(rng.used) + FISH_DRAWS * n
      ensures forall i :: |old(fishes)| <= i < |fishes| ==>
        fresh(fishes[i]) && SpawnedFish(fishes[i], i - |old(fishes)|, old(nextFishId), old(rng.Stream()), env)
      ensures Distinct(old(fishes)) ==> Distinct(fishes)
    {
      var n := LoopCount(amount);
      var i := 0;
      while i < n
        invariant i <= n
        invariant |fishes| == |old(fishes)| + i && fishes[..|old(fishes)|] == old(fishes)
        invariant nextFishId == old(nextFishId) + i
        invariant rng.used == old(rng.used) + FISH_DRAWS * i
        invariant forall j :: |old(fishes)| <= j < |fishes| ==>
          fresh(fishes[j]) && SpawnedFish(fishes[j], j - |old(fishes)|, old(nextFishId), old(rng.Stream()), env)
        invariant Distinct(old(fishes)) ==> Distinct(fishes)
      {
        var fish := NewFish(env, rng);
        fishes := fishes + [fish];
        nextFishId := nextFishId + 1;
        i := i + 1;
      }
    }

    /** One round of spawnFish's loop. */
    method NewFish(env: Env, rng: Rng) returns (fish: Fish)
      modifies rng`used
      ensures fresh(fish)
      ensures rng.used == old(rng.used) + FISH_DRAWS
      ensures fish.id == nextFishId && fish.state == Idling && fish.Valid()
      ensures fish.x == SpawnCoordinate(FISH_MARGIN, old(rng.Stream()).At(0), env.width)
      ensures fish.y == SpawnCoordinate(FISH_MARGIN, old(rng.Stream()).At(1), env.height)
    {
      var rx := rng.Random();
      var ry := rng.Random();
      var x := SpawnCoordinate(FISH_MARGIN, rx, env.width);
      var y := SpawnCoordinate(FISH_MARGIN, ry, env.height);
      fish := new Fish(nextFishId, x, y, rng);
    }

    /** removeFish(index): splice(index, 1). */
    method RemoveFish(index: int)
      modifies this`fishes
      ensures fishes == Splice1(old(fishes), index)
      ensures Distinct(old(fishes)) ==> Distinct(fishes)
    {
      if Distinct(fishes) {
        SpliceKeepsDistinct(fishes, index);
      }
      fishes := Splice1(fishes, index);
    }

    /** spawnFood(amount): amount pellets dropped at the top of the tank. */
    method SpawnFood(amount: real, env: Env, rng: Rng)
      modifies foods`elems, rng`used
      ensures var n := LoopCount(amount);
        && |foods.elems| == |old(foods.elems)| + n
        && foods.elems[..|old(foods.elems)|] == old(foods.elems)
        && rng.used == old(rng.used) + FOOD_DRAWS * n
      ensures forall i :: |old(foods.elems)| <= i < |foods.elems| ==>
        fresh(foods.elems[i]) && SpawnedFood(foods.elems[i], i - |old(foods.elems)|, old(rng.Stream()), env)
    {
      var n := LoopCount(amount);
      var i := 0;
      while i < n
        invariant i <= n
        invariant |foods.elems| == |old(foods.elems)| + i && foods.elems[..|old(foods.elems)|] == old(foods.elems)
        invariant rng.used == old(rng.used) + FOOD_DRAWS * i
        invariant forall j :: |old(foods.elems)| <= j < |foods.elems| ==>
          fresh(foods.elems[j]) && SpawnedFood(foods.elems[j], j - |old(foods.elems)|, old(rng.Stream()), env)
      {
        var r := rng.Random();
        var x := SpawnCoordinate(FOOD_MARGIN, r, env.width);
        var food := new Food(x, FOOD_START_Y, rng);
        foods.elems := foods.elems + [food];
        i := i + 1;
      }
    }

    /** spawnEnemy(amount): amount enemies at a random x, on the edge above
        or below the tank. */
    method SpawnEnemy(amount: real, env: Env, rng: Rng)
      modifies this`enemies, rng`used
      ensures var n := LoopCount(amount);
        && |enemies| == |old(enemies)| + n
        && enemies[..|old(enemies)|] == old(enemies)
        && rng.used == old(rng.used) + ENEMY_DRAWS * n
        && forall i :: |old(enemies)| <= i < |enemies| ==>
             enemies[i] == EnemyAt(old(rng.Stream()), i - |old(enemies)|, env)
    {
      var n := LoopCount(amount);
      var i := 0;
      while i < n
        invariant i <= n
        invariant |enemies| == |old(enemies)| + i && enemies[..|old(enemies)|] == old(enemies)
        invariant rng.used == old(rng.used) + ENEMY_DRAWS * i
        invariant forall j :: |old(enemies)| <= j < |enemies| ==>
          enemies[j] == EnemyAt(old(rng.Stream()), j - |old(enemies)|, env)
      {
        var r := rng.Random();
        var x := SpawnCoordinate(ENEMY_MARGIN, r, env.width);
        var y := DrawChoose(rng, -ENEMY_MARGIN, env.height + ENEMY_MARGIN);
        var which := rng.Random();
        var kind := if which < 0.8 then Enemy1 else Enemy2;
        enemies := enemies + [EnemySpawn(kind, x, y)];
        i := i + 1;
      }
    }

    /** removeEnemy(index): splice(index, 1). */
    method RemoveEnemy(index: int)
      modifies this`enemies
      ensures enemies == Splice1(old(enemies), index)
    {
      enemies := Splice1(enemies, index);
    }

    /** schoolFish(): one random point of the tank becomes the target of
        every idling fish; other fish keep theirs. */
    method SchoolFish(env: Env, rng: Rng)
      modifies fishes`targetX, fishes`targetY, rng`used
      ensures rng.used == old(rng.used) + 2
      ensures forall f | f in fishes :: f.state == Idling ==>
        f.targetX == RandomCoordinate(old(rng.Stream()).At(0), env.width)
        && f.targetY == RandomCoordinate(old(rng.Stream()).At(1), env.height)
      ensures forall f | f in fishes :: f.state != Idling ==>
        f.targetX == old(f.targetX) && f.targetY == old(f.targetY)
    {
      ghost var d := rng.Stream();
      var rx := rng.Random();
      var ry := rng.Random();
      var x := RandomCoordinate(rx, env.width);
      var y := RandomCoordinate(ry, env.height);
      assert x == RandomCoordinate(d.At(0), env.width) && y == RandomCoordinate(d.At(1), env.height);
      Retarget(x, y);
    }

    /** schoolFish's forEach: (x, y) becomes the target of every idling fish. */
    method Retarget(x: real, y: real)
      modifies fishes`targetX, fishes`targetY
      ensures forall f | f in fishes :: f.state == Idling ==> f.targetX == x && f.targetY == y
      ensures forall f | f in fishes :: f.state != Idling ==>
        f.targetX == old(f.targetX) && f.targetY == old(f.targetY)
    {
      var k := 0;
      while k < |fishes|
        invariant k <= |fishes|
        invariant forall f | f in fishes[..k] :: f.state == Idling ==> f.targetX == x && f.targetY == y
        invariant forall f | f in fishes && f !in fishes[..k] :: f.targetX == old(f.targetX) && f.targetY == old(f.targetY)
        invariant forall f | f in fishes && f.state != Idling :: f.targetX == old(f.targetX) && f.targetY == old(f.targetY)
      {
        var fish := fishes[k];
        if fish.state == Idling {
          fish.targetX := x;
          fish.targetY := y;
        }
        assert fishes[..k + 1] == fishes[..k] + [fish];
        k := k + 1;
      }
      assert fishes[..k] == fishes;
    }

    /** What a mousedown with button `which` asks of every fish: FOLLOWING
        on the left button (1), AVOIDING the cursor on the right button
        (3), nothing otherwise. Only the right button touches target.obj.
        Each fish gets its own setStateSpeed draws, in array order. */
    method MouseDown(which: int, env: Env, rng: Rng)
      modifies fishes`state, fishes`targetSpeed, fishes`wiggleSpeed, fishes`performingAction, fishes`targetObj, rng`used
      ensures which == 1 ==> forall f | f in fishes :: InState(f, Following) && !f.performingAction
      ensures which == 3 ==> forall f | f in fishes :: Avoids(f, env) && !f.performingAction
      ensures which != 3 ==> forall f | f in fishes :: f.targetObj == old(f.targetObj)
      ensures which != 1 && which != 3 ==> forall f | f in fishes :: f.Snapshot() == old(f.Snapshot())
      ensures which != 1 && which != 3 ==> rng.used == old(rng.used)
      ensures which == 1 ==> rng.used == old(rng.used) + |fishes| * (SpeedDraws(Following) + 1)
      ensures which == 3 ==> rng.used == old(rng.used) + |fishes| * (SpeedDraws(Avoiding) + 1)
      ensures which == 1 && Distinct(fishes) ==> forall i :: 0 <= i < |fishes| ==>
        fishes[i].Snapshot() == ChangeStateSpec(old(fishes[i].Snapshot()), Following,
          old(rng.Stream()).Skip(i * (SpeedDraws(Following) + 1))).0
      ensures which == 3 && Distinct(fishes) ==> forall i :: 0 <= i < |fishes| ==>
        fishes[i].Snapshot() == ChangeStateSpec(old(fishes[i].Snapshot()), Avoiding,
          old(rng.Stream()).Skip(i * (SpeedDraws(Avoiding) + 1))).0.(targetObj := Point(env.mouseX, env.mouseY))
    {
      if which == 1 {
        Broadcast(Following, rng);
      } else if which == 3 {
        AvoidCursor(env, rng);
      }
    }

    /** The right button's forEach: changeState(AVOIDING), then the cursor
        point as the object to flee. */
    method AvoidCursor(env: Env, rng: Rng)
      modifies fishes`state, fishes`targetSpeed, fishes`wiggleSpeed, fishes`performingAction, fishes`targetObj, rng`used
      ensures forall f | f in fishes :: Fleeing(f, env)
      ensures rng.used == old(rng.used) + |fishes| * (SpeedDraws(Avoiding) + 1)
      ensures Distinct(fishes) ==> forall i :: 0 <= i < |fishes| ==>
        FledBy(fishes[i], old(fishes[i].Snapshot()), env, old(rng.Stream()), i)
    {
      ghost var d := rng.Stream();
      ghost var olds := Snapshots(fishes);
      ghost var per := SpeedDraws(Avoiding) + 1;
      var k := 0;
      while k < |fishes|
        invariant k <= |fishes|
        invariant rng.source == d.source && rng.used == d.used + k * per
        invariant AvoidReached(env, d, olds, k)
      {
        AvoidRound(fishes[k], k, env, rng, d, olds);
        assert (k + 1) * per == k * per + per;
        k := k + 1;
      }
      assert forall i :: 0 <= i < |fishes| ==> Fleeing(fishes[i], env);
    }

    /** The fish before index k have been sent fleeing by AvoidCursor, and,
        when none occurs twice, those from k on are as they started. */
    ghost predicate AvoidReached(env: Env, d: Draws, olds: seq<Behaviour>, k: nat)
      reads this, fishes
    {
      && k <= |fishes| && |olds| == |fishes|
      && (forall i {:trigger Fleeing(fishes[i], env)} :: 0 <= i < k ==> Fleeing(fishes[i], env))
      && (Distinct(fishes) ==> forall i :: 0 <= i < k ==> FledBy(fishes[i], olds[i], env, d, i))
      && (Distinct(fishes) ==> forall i :: k <= i < |fishes| ==> Unchanged(fishes[i], olds[i]))
    }

    /** The k-th round of AvoidCursor. */
    method AvoidRound(fish: Fish, k: nat, env: Env, rng: Rng, ghost d: Draws, ghost olds: seq<Behaviour>)
      requires k < |fishes| && fish == fishes[k] && AvoidReached(env, d, olds, k)
      requires rng.source == d.source && rng.used == d.used + k * (SpeedDraws(Avoiding) + 1)
      modifies fish`state, fish`targetSpeed, fish`wiggleSpeed, fish`performingAction, fish`targetObj, rng`used
      ensures AvoidReached(env, d, olds, k + 1)
      ensures rng.used == old(rng.used) + SpeedDraws(Avoiding) + 1
    {
      label before:
      Flee(fish, env, rng);
      forall i | 0 <= i < k
        ensures Fleeing(fishes[i], env)
      {
        if fishes[i] != fish {
          assert old@before(Fleeing(fishes[i], env));
        }
      }
      if Distinct(fishes) {
        assert old@before(Unchanged(fish, olds[k]));
        assert FledBy(fish, olds[k], env, d, k);
        forall i | 0 <= i < k
          ensures FledBy(fishes[i], olds[i], env, d, i)
        {
          assert fishes[i] != fish;
          assert old@before(FledBy(fishes[i], olds[i], env, d, i));
        }
        forall i | k < i < |fishes|
          ensures Unchanged(fishes[i], olds[i])
        {
          assert fishes[i] != fish;
          assert old@before(Unchanged(fishes[i], olds[i]));
        }
      }
    }

    /** One round of the right button's forEach. */
    method Flee(fish: Fish, env: Env, rng: Rng)
      modifies fish`state, fish`targetSpeed, fish`wiggleSpeed, fish`performingAction, fish`targetObj, rng`used
      ensures Avoids(fish, env) && !fish.performingAction
      ensures fish.Snapshot() == ChangeStateSpec(old(fish.Snapshot()), Avoiding, old(rng.Stream())).0.(targetObj := Point(env.mouseX, env.mouseY))
      ensures rng.used == old(rng.used) + SpeedDraws(Avoiding) + 1
    {
      fish.ChangeState(Avoiding, rng);
      fish.targetObj := Point(env.mouseX, env.mouseY);
    }

    /** mouseup: every fish back to IDLING. */
    method MouseUp(rng: Rng)
      modifies fishes`state, fishes`targetSpeed, fishes`wiggleSpeed, fishes`performingAction, rng`used
      ensures forall f | f in fishes :: InState(f, Idling) && !f.performingAction
      ensures rng.used == old(rng.used) + |fishes| * (SpeedDraws(Idling) + 1)
      ensures Distinct(fishes) ==> forall i :: 0 <= i < |fishes| ==>
        fishes[i].Snapshot() == ChangeStateSpec(old(fishes[i].Snapshot()), Idling,
          old(rng.Stream()).Skip(i * (SpeedDraws(Idling) + 1))).0
    {
      Broadcast(Idling, rng);
    }

    /** `fishes.forEach(fish => fish.changeState(s))`: when no fish occurs
        twice in the array, the i-th fish is left as changeState(s) leaves
        it with the i-th share of the stream. */
    method Broadcast(s: State, rng: Rng)
      modifies fishes`state, fishes`targetSpeed, fishes`wiggleSpeed, fishes`performingAction, rng`used
      ensures forall f | f in fishes :: Reached(f, s)
      ensures rng.used == old(rng.used) + |fishes| * (SpeedDraws(s) + 1)
      ensures Distinct(fishes) ==> forall i :: 0 <= i < |fishes| ==>
        ChangedBy(fishes[i], old(fishes[i].Snapshot()), s, old(rng.Stream()), i)
    {
      ghost var d := rng.Stream();
      ghost var olds := Snapshots(fishes);
      ghost var per := SpeedDraws(s) + 1;
      var k := 0;
      while k < |fishes|
        invariant k <= |fishes|
        invariant rng.source == d.source && rng.used == d.used + k * per
        invariant BroadcastReached(s, d, olds, k)
      {
        BroadcastRound(fishes[k], k, s, rng, d, olds);
        assert (k + 1) * per == k * per + per;
        k := k + 1;
      }
      assert forall i :: 0 <= i < |fishes| ==> Reached(fishes[i], s);
    }

    /** The fish before index k have been dealt with by Broadcast(s), and,
        when none occurs twice, those from k on are as they started. */
    ghost predicate BroadcastReached(s: State, d: Draws, olds: seq<Behaviour>, k: nat)
      reads this, fishes
    {
      && k <= |fishes| && |olds| == |fishes|
      && (forall i :: 0 <= i < k ==> Reached(fishes[i], s))
      && (Distinct(fishes) ==> forall i :: 0 <= i < k ==> ChangedBy(fishes[i], olds[i], s, d, i))
      && (Distinct(fishes) ==> forall i :: k <= i < |fishes| ==> Unchanged(fishes[i], olds[i]))
    }

    /** The k-th round of Broadcast(s). */
    method BroadcastRound(fish: Fish, k: nat, s: State, rng: Rng, ghost d: Draws, ghost olds: seq<Behaviour>)
      requires k < |fishes| && fish == fishes[k] && BroadcastReached(s, d, olds, k)
      requires rng.source == d.source && rng.used == d.used + k * (SpeedDraws(s) + 1)
      modifies fish`state, fish`targetSpeed, fish`wiggleSpeed, fish`performingAction, rng`used
      ensures BroadcastReached(s, d, olds, k + 1)
      ensures rng.used == old(rng.used) + SpeedDraws(s) + 1
    {
      label before:
      fish.ChangeState(s, rng);
      assert Reached(fish, s);
      forall i | 0 <= i < k
        ensures Reached(fishes[i], s)
      {
        if fishes[i] != fish {
          assert old@before(Reached(fishes[i], s));
        }
      }
      if Distinct(fishes) {
        assert old@before(Unchanged(fish, olds[k]));
        assert ChangedBy(fish, olds[k], s, d, k);
        forall i | 0 <= i < k
          ensures ChangedBy(fishes[i], olds[i], s, d, i)
        {
          assert fishes[i] != fish;
          assert old@before(ChangedBy(fishes[i], olds[i], s, d, i));
        }
        forall i | k < i < |fishes|
          ensures Unchanged(fishes[i], olds[i])
        {
          assert fishes[i] != fish;
          assert old@before(Unchanged(fishes[i], olds[i]));
        }
      }
    }
  }
}
