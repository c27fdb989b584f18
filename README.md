# FishSim in Dafny

A model of the simulation core of FishSim, a browser aquarium written in
JavaScript. Fish idle, rest, follow or flee the cursor and hunt falling food
pellets. A particle system makes bubbles. The module `main.js` keeps the shared
arrays of fish, food and enemies.

## How the model is organised

- `Host.dfy` holds what the program takes from its host, made explicit:
  - `Math.PI`, `abs`, `min` and `max`;
  - `Math.sin`, `Math.cos` and `Math.atan2`, as function values in an `Env`;
  - the order the engine's `sort` leaves an array in;
  - `Date.now()`, the cursor position and the canvas size;
  - `Math.random()`, as a stream (`Draws`, and the `Rng` class that consumes it).
- `Js.dfy` models the JavaScript built-ins the core relies on: `indexOf`,
  `splice(start, 1)`, the permutation an in-place sort performs, and the number
  of rounds of `for (i = 0; i < n; i++)` for a fractional `n`.
- `Misc.dfy` models `src/misc.js`. Each helper that calls `Math.random()` is a
  function of the drawn value, plus a `Draw…` method that consumes the stream.
  The method draws exactly as often as the JavaScript does.
- `Foods.dfy` models `src/Food.js`: the `Food` class, the shared `foods` array
  (`FoodArray`) and the fall of a pellet as a function.
- `Fishes.dfy`, `FishStates.dfy` and `FishClass.dfy` model `src/Fish.js`:
  - `Fishes` holds the values: states, timers, speeds, waves and distances.
  - `FishStates` holds one pure function per step of `handleStates`. Each works
    on a `Behaviour`, the fields that `handleStates` may change. It also holds
    the lemmas about the state machine.
  - `FishClass` holds the `Fish` class, whose methods update fields in place.
    Each method is proved to leave the fish, `foods` and the random stream as
    the matching function says.
- `Particles.dfy` models `src/ParticleSystem.js`:
  - the `Particle` type class and its setters;
  - the `ParticleSystem` class, with its update loop that splices while it iterates;
  - the `ParticleEmitter` class and its burst;
  - `convertRange`.
- `World.dfy` models `src/main.js`. Spawning, removal, schooling and the mouse
  handlers' broadcast are methods of a `Tank` class, which holds the module's
  arrays.

Distances are compared squared (`d <= 600` becomes `d² <= 360000`), so no
square root is needed. `Math.sin` and `Math.cos` are clamped to [-1, 1] in the
model. This changes nothing for the real functions but lets proofs use the
bound.

## Model

| member | source | states |
|---|---|---|
| Misc.AnimationWave | src/misc.js:16-19 | for a non-negative range the wave lies in [-range, 0] |
| Misc.DegToRad | src/misc.js:21-23 | 180 degrees is PI and 90 degrees is PI / 2; zero only at zero, and the sign is kept |
| Misc.RadToDeg | src/misc.js:21-27 | radToDeg is undone by degToRad |
| Misc.DegToRadRoundTrip | src/misc.js:21-27 | radToDeg(degToRad(d)) == d |
| Misc.RandomRange | src/misc.js:29-33 | a when a === b; otherwise in [a, b) for a < b, in (b, a] for b < a, always between the bounds |
| Misc.RangeDraw | src/misc.js:29-33 | the value lies between the bounds, and one draw is consumed exactly when the bounds differ |
| Misc.DrawRandomRange | src/misc.js:29-33 | returns randomRange of the next draw, consuming a draw only when a != b, as RangeDraw says |
| Misc.IRandomRange | src/misc.js:35-39 | a when a === b; otherwise a whole number within one below randomRange's value, in (a - 1, b) for a < b |
| Misc.DrawIRandomRange | src/misc.js:35-39 | returns irandomRange of the next draw, consuming one draw only when a != b |
| Misc.Lerp | src/misc.js:41-43 | lerp gives n1 at t = 0 and n2 at t = 1 |
| Misc.LerpBetween | src/misc.js:41-43 | for t in [0, 1], lerp lies between its endpoints |
| Misc.Clamp | src/misc.js:45-47 | in [min, max] when min <= max; n itself when already in range; always one of n, min, max; min when max < min |
| Misc.Choose | src/misc.js:49-55 | a when the draw is at least 0.5, b when it is below |
| Misc.DrawChoose | src/misc.js:49-55 | choose with exactly one draw |
| Misc.Choose2 | src/misc.js:57-65 | a when the first draw is at least 0.6666; otherwise b when the second draw is at least 0.3333, and c when it is below |
| Misc.DrawChoose2 | src/misc.js:57-65 | one draw when it returns a, two otherwise |
| Misc.Chance | src/misc.js:67-69 | always true at 100 percent or more, never below 0, true iff r * 100 <= perc |
| Misc.DrawChance | src/misc.js:67-69 | chance with exactly one draw |
| Misc.AngleDifference | src/misc.js:71-73 | non-negative, zero iff the angles are equal, b within d of a |
| Misc.AngleDifferenceSymmetric | src/misc.js:71-73 | angleDifference(a, b) == angleDifference(b, a) |
| Host.RandomCoordinate | src/Fish.js:107-108 | Math.random() * extent lies in [0, extent), or is 0 for an empty extent |
| Host.Env.SortOrder | src/Fish.js:274-278 | whatever the inconsistent comparator makes the engine do, the outcome is a permutation of the indices |
| Js.IndexOf | src/Food.js:29 | -1 exactly when x is absent; otherwise the first index holding x |
| Js.Splice1 | src/Food.js:30 | splice(start, 1) removes the element at a valid index and keeps the rest in order; at -1 it removes the last element; past the end it changes nothing; it never adds an element |
| Js.SpliceIndexOf | src/Fish.js:170-171 | splice(indexOf(x), 1) removes one occurrence of a present x and nothing else; for an absent x it removes the last element |
| Js.PermutePreservesMultiset | src/Fish.js:274-278 | rearranging by a permutation keeps every element, the same number of times |
| Js.LoopCount | src/ParticleSystem.js:117 | `for (i = 0; i < n; i++)` runs zero times iff n <= 0, otherwise the least whole number of times at or above n |
| Foods.Fall | src/Food.js:21-26 | one step drops the pellet by exactly speed * dt. A speed above 0.5 falls by exactly deceleration * dt, and one at or below 0.5 stays fixed. Hence, for non-negative speed, dt and deceleration, a pellet never rises and never speeds up |
| Foods.FallNMonotone | src/Food.js:21-26 | over any number of frames a pellet never rises or speeds up, and its speed keeps a lower bound |
| Foods.FallNAtSinkSpeed | src/Food.js:21-26 | once at or below 0.5 the speed is fixed for good, and the pellet sinks by exactly speed * dt per frame |
| Foods.Food.constructor | src/Food.js:4-10 | a pellet starts where it is put, with speed 3, deceleration 0.03 and an angle from one draw |
| Foods.Food.Update | src/Food.js:21-36 | height and speed follow Fall; a pellet strictly below the floor splices `foods` at its own indexOf, and otherwise `foods` is unchanged |
| Foods.Food.IsOutsideRoom | src/Food.js:34-36 | isOutsideRoom: strictly below the floor (no contract; Food.Update states its use) |
| Foods.FoodArray.constructor | src/main.js:22 | `foods` starts empty |
| Fishes.StartingTimersArmed | src/Fish.js:51-55 | a new fish's three timers are armed, with changePath in [1, 3), resting in [5, 35) and checkForFood in [0.5, 2.5) |
| Fishes.Tick | src/Fish.js:247-256 | timerCountdown returns true exactly for an armed timer at or below 0 and disarms it; it returns null exactly for a disarmed timer and changes nothing; otherwise it counts down by dt/60; no other timer changes |
| Fishes.DisarmedStaysDisarmed | src/Fish.js:247-256 | a disarmed timer returns null on every later call |
| Fishes.FiresAtMostOnce | src/Fish.js:247-256 | a timer fires at most once per arming: every call after the firing one returns null |
| Fishes.FiresOneCallLate | src/Fish.js:247-256 | the call that drives a positive timer to 0 or below still returns false, and the next one fires |
| Fishes.FiresInTime | src/Fish.js:247-256 | with dt > 0, a timer whose value is covered by n countdown steps fires within n + 1 calls |
| Fishes.StateSpeed | src/Fish.js:196-205 | the target speed per state: IDLING in [0.3, 1.3), FOLLOWING in [2, 3), AVOIDING in [2, 4), RESTING and EATING 0.2, MOVING_TO_TARGET and FIGHTING 2 |
| Fishes.FastStates | src/Fish.js:196-207 | a fitting target speed is at least 2 exactly in the chasing states, and never below 0.2 |
| Fishes.WiggleSpeedFor | src/Fish.js:206-207 | the wiggle duration is in [0.25, 0.4) for a target speed of at least 2, and in [0.65, 0.8) otherwise |
| Fishes.Ease | src/Fish.js:73-77 | below the target the speed rises by exactly acceleration * dt. At or above the target, a positive speed falls by exactly deceleration * dt, and a speed at or below zero stays as it is. With non-negative steps the new speed lies between the old one and one step away |
| Fishes.Advance | src/Fish.js:88-89 | along each axis the fish moves by at most abs(speed * dt), and not at all when that is zero |
| Fishes.EaseNStaysInBand | src/Fish.js:73-77 | easing towards a positive target speed never leaves the band from one braking step below to one acceleration step above it |
| Fishes.EaseNAccelerates | src/Fish.js:73-77 | below the target, each frame adds exactly acceleration * dt |
| Fishes.EaseNBrakes | src/Fish.js:73-77 | at or above the target, while the speed stays non-negative, each of n frames takes away exactly deceleration * dt |
| Fishes.DistanceSquared | src/Fish.js:214-218 | the squared distance is non-negative |
| Fishes.DistanceToSelf | src/Fish.js:214-218 | a point is at distance 0 from itself |
| Fishes.DistanceSymmetric | src/Fish.js:214-218 | the distance is the same from either end |
| Fishes.DistanceBox | src/Fish.js:243-245 | points more than m apart along either axis are more than m apart; points within m along both axes are within m * sqrt 2 |
| Fishes.SmoothRotation | src/Fish.js:293-297 | one turn step moves the angle by at most min(abs(diff), rSpeed) |
| Fishes.AnimationWave | src/Fish.js:299-302 | unlike the copy in misc.js, this wave lies in [-range, range] |
| Fishes.SmallWaves | src/Fish.js:226-236 | the rock and rattle offsets stay within 0.1 radian |
| Fishes.Wiggle | src/Fish.js:220-224 | no wiggle below a target speed of 0.5; otherwise within 0.1 radian |
| Fishes.OutsideRoom | src/Fish.js:238-241 | outside exactly when not in the closed rectangle [0, W] x [0, H], so a fish on an edge is inside |
| FishStates.RefIndex | src/Fish.js:151 | indexOf(target.obj) is -1 exactly when the target is not a pellet of `foods`, and otherwise finds that pellet |
| FishStates.SetStateSpeedSpec | src/Fish.js:196-208 | setStateSpeed changes only targetSpeed and wiggleSpeed, each fits its state, and it consumes one draw plus one more for random-speed states |
| FishStates.ChangeStateSpec | src/Fish.js:177-182 | changeState(s) sets the state to s and clears performingAction; the speeds fit s; nothing else changes |
| FishStates.PointTowards | src/Fish.js:210-212 | atan2 of the offset to the point (no contract: atan2 is the host's) |
| FishStates.FoodTimerSpec | src/Fish.js:94-95 | fires exactly when checkForFood is armed and at or below 0, and then disarms it; a running timer drops by dt/60; a disarmed one changes nothing; no other timer and no other field changes |
| FishStates.Keys | src/Fish.js:270-272 | each pellet's key is its squared distance to the fish |
| FishStates.Sorted | src/Fish.js:274-278 | the sort reorders `foods` without adding or losing a pellet |
| FishStates.CheckForFoodSpec | src/Fish.js:258-282 | no pellets: nothing changes. Otherwise `foods` is left sorted. A first pellet within 600 becomes the target: state MOVING_TO_TARGET, performingAction set, one draw. Farther away nothing else changes. Well-formedness is kept |
| FishStates.TakeTargetSpec | src/Fish.js:262-266 | the end of checkForFood. A pellet within 600 becomes the target, the state becomes MOVING_TO_TARGET with performingAction set, and one draw is made. A farther pellet changes nothing. Well-formedness is kept |
| FishStates.IdlingSpec | src/Fish.js:100-117 | the IDLING case keeps the state or starts RESTING, keeps the target object and the food timer, and keeps a well-formed fish well-formed |
| FishStates.NewPathSpec | src/Fish.js:104-111 | the changePath branch of IDLING (no contract; IdlingNewPath and IdlingKeepsPath state it) |
| FishStates.FallAsleepSpec | src/Fish.js:112-116 | the resting branch of IDLING (no contract; IdlingStartsResting states it) |
| FishStates.FollowingSpec | src/Fish.js:119-126 | the FOLLOWING case changes only the target point and the angles |
| FishStates.AvoidingSpec | src/Fish.js:128-137 | the AVOIDING case keeps the state or goes back to IDLING, with the target object and timers unchanged and well-formedness kept |
| FishStates.RestingSpec | src/Fish.js:139-147 | the RESTING case keeps the state or goes back to IDLING, with target and food timer unchanged and well-formedness kept |
| FishStates.RockSpec | src/Fish.js:226-232 | rock as a value: the target angle, the turn and the drift of y (no contract; RestingWakesUp bounds the drift) |
| FishStates.MovingSpec | src/Fish.js:149-167 | the MOVING_TO_TARGET case ends in the same state, IDLING or EATING, with target object and timers unchanged and well-formedness kept |
| FishStates.ApproachSpec | src/Fish.js:154-167 | after the presence check, the fish stays on its way or starts EATING, with target and timers unchanged |
| FishStates.EatingSpec | src/Fish.js:169-173 | EATING splices `foods` at indexOf(target.obj) and returns to an IDLING speed |
| FishStates.BeforeSwitch | src/Fish.js:93-98 | the food timer's step keeps a target for a moving fish and keeps well-formedness. It only reorders `foods`, and changes the state only to MOVING_TO_TARGET, with food present. A fired timer is rearmed to 2. An unfired one changes nothing but the countdown |
| FishStates.SteerSpec | src/Fish.js:79-81 | out of the room, the fish only turns towards the centre, by at most 0.2 * dt |
| FishStates.OutsideSkipsStates | src/Fish.js:79-84 | outside the tank handleStates does not run, so state, timers, target, speed, `foods` and the random stream are unchanged |
| FishStates.SwitchSpec | src/Fish.js:99-174 | the case switch of handleStates (no contract; HandleStaysInGraph and the per-case specs state it) |
| FishStates.HandleSpec | src/Fish.js:92-175 | handleStates: the food timer step, then the switch (no contract; HandleKeepsWellFormed, HandleStaysInGraph, NoFoodNoHunt and HandleEatsAtMostOne state it) |
| FishStates.NavigateSpec | src/Fish.js:79-84 | the middle of update: steer when outside the room, handleStates otherwise (no contract; OutsideSkipsStates and SteerSpec state it) |
| FishStates.IdlingNewPath | src/Fish.js:104-111 | on a changePath fire the target point lies in [0, W) x [0, H) (for a non-empty tank) and changePath is rearmed in [1, 4) |
| FishStates.IdlingKeepsPath | src/Fish.js:104-111 | without a changePath fire the target point stays put |
| FishStates.IdlingStartsResting | src/Fish.js:112-116 | on a resting fire an idling fish starts RESTING at speed 0.2, with resting rearmed in [2, 4); otherwise it stays IDLING |
| FishStates.RockDrifts | src/Fish.js:226-232 | rocking moves y by at most 0.1 * dt either way and leaves the state and the timers alone |
| FishStates.RestingWakesUp | src/Fish.js:139-147 | a resting fish drifts at most 0.1 * dt vertically; on the resting fire it goes back to IDLING, with resting rearmed in [20, 30); otherwise it keeps resting |
| FishStates.FollowingFollows | src/Fish.js:119-126 | a following fish keeps following; farther than 50 from the cursor it takes the cursor as its target point, and closer nothing changes |
| FishStates.AvoidingFlees | src/Fish.js:128-137 | within 150 of the cursor the fish keeps avoiding and targets the cursor; otherwise it goes back to IDLING, using two draws |
| FishStates.StaleTargetStillRead | src/Fish.js:149-167 | a target no longer in `foods` still has its position read; the fish ends IDLING, or EATING exactly when within 15 |
| FishStates.MovingReachesTarget | src/Fish.js:149-167 | with the target still present, the fish starts EATING exactly when within 15, and otherwise stays on its way to the same target |
| FishStates.EatingTakesOnePellet | src/Fish.js:169-173 | from a non-empty `foods`, eating removes exactly one pellet and returns to IDLING: its own target if present, otherwise the last pellet |
| FishStates.HandleKeepsWellFormed | src/Fish.js:92-175 | handleStates keeps speeds fitting the state, and keeps a target for a moving fish |
| FishStates.HandleStaysInGraph | src/Fish.js:92-175 | handleStates never starts FOLLOWING, AVOIDING or FIGHTING, and starts RESTING only from IDLING |
| FishStates.NoFoodNoHunt | src/Fish.js:92-175 | with `foods` empty, a fish not already moving to a target never starts MOVING_TO_TARGET or EATING |
| FishStates.SwitchFoods | src/Fish.js:99-174 | of the cases of the switch only EATING changes `foods`, and it splices out the pellet the fish aims at |
| FishStates.HandleEatsAtMostOne | src/Fish.js:92-175 | handleStates removes at most one pellet from `foods` and adds none |
| FishStates.FoodTimerRearmed | src/Fish.js:94-98 | when checkForFood fires, its timer ends the step rearmed to exactly 2 |
| FishClass.Fish.constructor | src/Fish.js:20-59 | the constants the source sets, state IDLING with a fitting speed, no target, armed timers, and exactly eight draws in source order |
| FishClass.Fish.TimerCountdown | src/Fish.js:247-256 | updates the timer object and returns as Tick says |
| FishClass.Fish.SetStateSpeed | src/Fish.js:196-208 | leaves the fish and the stream as SetStateSpeedSpec says |
| FishClass.Fish.ChangeState | src/Fish.js:177-182 | leaves the fish and the stream as ChangeStateSpec says |
| FishClass.Fish.Rock | src/Fish.js:226-232 | the rock step of the angle and y |
| FishClass.Fish.Rattle | src/Fish.js:234-236 | the angle moves by the rattle wave, by at most 0.1 |
| FishClass.Fish.IsOutsideRoom | src/Fish.js:238-241 | isOutsideRoom of the fish's position (no contract; Fishes.OutsideRoom states it) |
| FishClass.Fish.IsOutsideRadius | src/Fish.js:243-245 | more than 50 from the cursor along either axis is outside; within 35 along both is inside |
| FishClass.Fish.Idle | src/Fish.js:100-117 | the IDLING case exactly as IdlingSpec |
| FishClass.Fish.NewPath | src/Fish.js:104-111 | the changePath timer branch as NewPathSpec |
| FishClass.Fish.FallAsleep | src/Fish.js:112-116 | the resting timer branch as FallAsleepSpec |
| FishClass.Fish.Follow | src/Fish.js:119-126 | the FOLLOWING case exactly as FollowingSpec |
| FishClass.Fish.Avoid | src/Fish.js:128-137 | the AVOIDING case exactly as AvoidingSpec |
| FishClass.Fish.Rest | src/Fish.js:139-147 | the RESTING case exactly as RestingSpec |
| FishClass.Fish.MoveToTarget | src/Fish.js:149-167 | the MOVING_TO_TARGET case exactly as MovingSpec, with the target's position read after the state change |
| FishClass.Fish.Approach | src/Fish.js:154-167 | the part after the presence check, as ApproachSpec |
| FishClass.Fish.Eat | src/Fish.js:169-173 | the EATING case exactly as EatingSpec, on the shared `foods` |
| FishClass.Fish.NearestInstance | src/Fish.js:269-282 | `foods` is left as the sort's rearrangement. The result is its first element, drawn from the old array. Every pellet carries its squared distance, except the result, whose `distance` is deleted |
| FishClass.Fish.SortByDistance | src/Fish.js:274-278 | the in-place sort, and its first element comes from the array |
| FishClass.Fish.TakeNearest | src/Fish.js:274-281 | once every pellet carries its distance, `foods` is left as the sort's rearrangement. The result is its first element, drawn from the old array. Only the result loses its `distance` |
| FishClass.Fish.ClearDistance | src/Fish.js:279 | `delete arr[0].distance`: the chosen pellet has no distance, and every other measured pellet keeps its own |
| FishClass.Fish.MeasureDistances | src/Fish.js:270-272 | every pellet gets its squared distance to the fish |
| FishClass.Fish.CheckForFood | src/Fish.js:258-267 | fish, `foods` and stream end as CheckForFoodSpec says |
| FishClass.Fish.TakeTarget | src/Fish.js:262-266 | the end of checkForFood as TakeTargetSpec |
| FishClass.Fish.HandleStates | src/Fish.js:92-175 | fish, `foods` and stream end as HandleSpec says |
| FishClass.Fish.FoodTimer | src/Fish.js:93-98 | the food timer step as BeforeSwitch |
| FishClass.Fish.Switch | src/Fish.js:99-174 | the case switch as SwitchSpec |
| FishClass.Fish.Update | src/Fish.js:69-90 | the wiggle is smoothed with lerp; the speed eases; the middle steps follow NavigateSpec; the fish moves along angle + 90 degrees; well-formedness is kept |
| FishClass.Fish.Navigate | src/Fish.js:79-84 | steer back when outside, handleStates otherwise, keeping well-formedness |
| FishClass.Fish.Steer | src/Fish.js:79-81 | the out-of-room turn as SteerSpec |
| FishClass.Fish.Move | src/Fish.js:86-89 | direction is angle + 90 degrees, and the fish advances speed * dt along it |
| Particles.Particle.constructor | src/ParticleSystem.js:127-138 | the default type: the sizes, scale, colour, alpha, speeds, direction, gravity, orientation and life the constructor sets, with a non-zero life range |
| Particles.Particle.SetSprite | src/ParticleSystem.js:140-142 | sets the sprite only |
| Particles.Particle.SetSize | src/ParticleSystem.js:144-149 | sets the four size fields only |
| Particles.Particle.SetScale | src/ParticleSystem.js:151-154 | sets the two scale fields only |
| Particles.Particle.SetAlpha | src/ParticleSystem.js:156-159 | sets the two alpha fields only |
| Particles.Particle.SetSpeed | src/ParticleSystem.js:161-166 | sets the four speed fields only |
| Particles.Particle.SetDirection | src/ParticleSystem.js:168-173 | sets the four direction fields only |
| Particles.Particle.SetOrientation | src/ParticleSystem.js:175-181 | sets the five orientation fields only |
| Particles.Particle.SetGravity | src/ParticleSystem.js:183-186 | sets the two gravity fields only |
| Particles.Particle.SetColor | src/ParticleSystem.js:188-190 | sets the colour only |
| Particles.Particle.SetLife | src/ParticleSystem.js:192-195 | sets the two life fields only |
| Particles.Spawn | src/ParticleSystem.js:76-91 | the particle addParticle makes and the stream it leaves (no contract; SpawnFacts states it) |
| Particles.SpawnFacts | src/ParticleSystem.js:76-91 | a new particle starts where it is put, at alpha1; each drawn quantity lies in its type's range; fadeSpd * life == alpha1; one to six draws |
| Particles.BurstRoundInRegion | src/ParticleSystem.js:117-121 | one round of burst adds a particle of the type, at alpha1, inside the region |
| Particles.BurstSpec | src/ParticleSystem.js:116-122 | n rounds of burst as a value (no contract; BurstAppends and BurstInRegion state it) |
| Particles.BurstAppends | src/ParticleSystem.js:116-122 | a burst of n appends exactly n particles behind the existing ones |
| Particles.BurstInRegion | src/ParticleSystem.js:116-122 | every particle a burst appends is of the type, at alpha1, inside [x1, x2] x [y1, y2] |
| Particles.AgeCountsDown | src/ParticleSystem.js:44-49 | with life left, life drops by exactly dt and alpha is kept. Otherwise alpha becomes max(alpha - fadeSpd * dt, 0), never negative. Alpha never rises for dt > 0. Nothing else changes |
| Particles.DriftMoves | src/ParticleSystem.js:55-57 | angle, dir and size grow by exactly angIncr * dt, dirIncr * dt and sizeIncr * dt; life, alpha, speed and type are kept |
| Particles.Nudge | src/ParticleSystem.js:65-70 | a particle moves by at most speed * dt plus gravAmount * dt along each axis |
| Particles.Step | src/ParticleSystem.js:44-70 | the update of one live particle (no contract; AgeCountsDown, DriftMoves and Nudge state it) |
| Particles.Visit | src/ParticleSystem.js:41-73 | one forEach visit: an expired particle is spliced out, any other is stepped; no new particle type appears |
| Particles.Sweep | src/ParticleSystem.js:41-73 | the forEach over the original length (no contract; SweepStepsAll, SweepSkipsNext, SweepRemovesOnlyExpired and SweepKeepsAlpha state it) |
| Particles.SweepStepsAll | src/ParticleSystem.js:41-73 | with no expired particle to visit, update keeps every particle and steps each visited one exactly once |
| Particles.SweepSkipsNext | src/ParticleSystem.js:50-51 | of two expired particles side by side only the first leaves in one frame, because the splice shifts the second into the visited slot |
| Particles.SweepRemovesOnlyExpired | src/ParticleSystem.js:41-52 | update never adds particles and removes at most the expired ones |
| Particles.SweepKeepsAlpha | src/ParticleSystem.js:47-49 | update keeps every alpha non-negative |
| Particles.ConvertRange | src/ParticleSystem.js:200-204 | the result times (max - min) is value - min |
| Particles.ConvertRangeEnds | src/ParticleSystem.js:200-204 | convertRange is 0 at min and 1 at max, and in [0, 1] between them |
| Particles.ParticleSystem.constructor | src/ParticleSystem.js:5-8 | no emitters and no particles |
| Particles.ParticleSystem.VisitParticle | src/ParticleSystem.js:41-72 | one call of the forEach callback: the particle at index k is aged and moved in place, or spliced out once expired, as Visit says; the sweep from k + 1 then ends where the sweep from k would |
| Particles.ParticleSystem.Update | src/ParticleSystem.js:40-74 | the array ends as the forEach sweep over the original length: expired particles spliced out during the iteration, every other visited one aged and moved |
| Particles.ParticleSystem.AddParticle | src/ParticleSystem.js:76-91 | appends exactly the particle Spawn describes and consumes its draws |
| Particles.ParticleSystem.RemoveParticle | src/ParticleSystem.js:93-95 | splice(index, 1) on the particles |
| Particles.ParticleEmitter.constructor | src/ParticleSystem.js:100-103 | bound to its system, with the region at zero |
| Particles.ParticleEmitter.SetRegion | src/ParticleSystem.js:105-110 | sets the four region bounds |
| Particles.ParticleEmitter.Burst | src/ParticleSystem.js:116-122 | particles and stream end as BurstSpec with the loop's round count |
| Particles.ParticleEmitter.Round | src/ParticleSystem.js:117-121 | one round: a position in the region, then addParticle there |
| World.SpawnCoordinate | src/main.js:92-93 | the spawn formula as written yields a value in [-margin, extent - margin), not [margin, extent - margin) |
| World.EnemyAt | src/main.js:113-125 | each spawned enemy is on the edge above (-100) or below (H + 100), has x in [-100, W - 100], and is an Enemy1 exactly when its third draw is below 0.8 |
| World.Tank.constructor | src/main.js:17-22 | the initialisation: `spawnFish(20)` into an empty array, so 20 fresh, distinct, IDLING, well-formed fish with consecutive ids and 200 draws; no enemies; the shared `foods` |
| World.Tank.SpawnFish | src/main.js:89-97 | appends exactly the loop's count of fresh fish behind the old ones, with consecutive ids, positions from the spawn formula, IDLING and well formed, ten draws each; no fish occurs twice if none did |
| World.Tank.NewFish | src/main.js:92-94 | one round of spawnFish: two coordinates, then `new Fish` |
| World.Tank.RemoveFish | src/main.js:99-102 | splice(index, 1) on the fish; no fish occurs twice if none did |
| World.Tank.SpawnFood | src/main.js:104-111 | appends exactly the loop's count of fresh pellets at y = -8, with x from the spawn formula, two draws each |
| World.Tank.SpawnEnemy | src/main.js:113-125 | appends exactly the loop's count of enemies as EnemyAt describes, three draws each |
| World.Tank.RemoveEnemy | src/main.js:127-129 | splice(index, 1) on the enemies |
| World.Tank.SchoolFish | src/main.js:158-167 | every idling fish gets the same random point of the tank as its target; other fish keep theirs; two draws |
| World.Tank.Retarget | src/main.js:161-166 | the forEach of schoolFish: idling fish get (x, y), the others are untouched |
| World.Tank.MouseDown | src/main.js:172-190 | the left button makes every fish FOLLOWING; the right button makes every fish AVOIDING the cursor point; both clear performingAction, and each fish is as changeState leaves it with its own share of the stream; only the right button changes target.obj; any other button changes no fish and draws nothing |
| World.Tank.AvoidCursor | src/main.js:180-188 | every fish is AVOIDING, well formed, with performingAction cleared and the cursor point as target.obj; the i-th fish is as changeState(AVOIDING) leaves it with the i-th share of the stream |
| World.Tank.AvoidRound | src/main.js:180-187 | the k-th round of the right button's forEach: the fish at k joins those before it as fleeing the cursor point, and, when no fish occurs twice, it has its own share of the stream and the fish after it are untouched |
| World.Tank.Flee | src/main.js:182-186 | one round: the fish is as changeState(AVOIDING) leaves it, then targets the cursor point |
| World.Tank.MouseUp | src/main.js:192-196 | every fish ends IDLING and well formed with performingAction cleared; the i-th fish is as changeState(IDLING) leaves it with the i-th share of the stream |
| World.Tank.Broadcast | src/main.js:175-177 | every fish ends in the given state, well formed, with performingAction cleared; when no fish occurs twice, the i-th fish is exactly as changeState(s) leaves it with the i-th share of one or two draws per fish |
| World.Tank.BroadcastRound | src/main.js:174-176 | the k-th round of a changeState forEach: the fish at k joins those before it in the given state, and, when no fish occurs twice, it has its own share of the stream and the fish after it are untouched |

## Left out

- Rendering is not modelled: every `draw` method, the canvas calls, the background gradient and the FPS text. It has no effect on the simulation state.
- Sprite loading and the `onload` handler that sets a fish's width and height are not modelled. This is asynchronous asset I/O, and nothing in the core reads those fields.
- The module-level mouse listener of `misc.js` is not modelled. The cursor position is a field of `Env`.
- The DOM buttons are not modelled. `displayFishAmount` and `console.log` are left out because they only write output. `getStateName` only builds a log message.
- `requestAnimationFrame` and `gameLoop` are left out for frame timing: `dt` is a parameter. So is the second splice in gameLoop (src/main.js:65-73). After `Food.update` has spliced a pellet below the floor out, `foods.splice(i, 1)` removes the next pellet, which has shifted into slot i. That pellet leaves without being updated. The one after it then sits in slot i as well, so the forEach passes over it in that frame.
- The `setInterval` schedules are left out, including the periodic bubbles in `spawnBubbles`. Their effect is `SchoolFish`, `ParticleEmitter.SetRegion` and `ParticleEmitter.Burst`, which the model has.
- `ParticleEmitter.stream` has an empty body, so it is not modelled.
- `Enemy1` and `Enemy2` are not defined in the source files, nor are corpses or fighting. An enemy is recorded by its kind and the position passed to its constructor. Draws their constructors might make are not counted.
- The import mismatches are resolved as if the helpers of `misc.js` were meant. `src/Fish.js:1` takes `lerp`, `clamp`, `getMouseX` and `getMouseY` from `main.js`, which does not export them.
- The same holds for `src/main.js:184-185`. The right-button handler calls `getMouseX()` and `getMouseY()`, but `src/main.js:3` imports only `choose` and `randomRange` from `misc.js`. As written, the handler would stop with a ReferenceError right after the first fish's `changeState(AVOIDING)`: that fish would get no cursor target and the rest would be untouched. MouseDown (button 3), AvoidCursor, AvoidRound and Flee instead model the evident intent, where every fish flees the cursor point that `misc.js` reports.
- A new fish's `targetAngle` is undefined in the source until its first update sets it. The model starts it at 0, and no step reads it before writing it.
- The static counter `Fish.ID` is the field `nextFishId` of `Tank`. The constructor takes the id as a parameter.
- Broadcast: the exact per-fish result is promised only when no fish occurs twice in `fishes`. A fish listed twice would get changeState twice, and only its second draws would last. The Tank constructor, SpawnFish and RemoveFish keep the fish distinct, but no class invariant of `Tank` carries this between calls.
- AvoidCursor: the exact per-fish result carries the same distinctness condition as Broadcast.
- MouseUp: the exact per-fish result carries the same distinctness condition as Broadcast.
- MouseDown: the exact per-fish result for buttons 1 and 3 carries the same distinctness condition as Broadcast.
- The `timer` dictionary of a fish is a record with one optional field per timer name. null is `None`.
- A timer name other than the three a fish has cannot be written in the model. The source only ever passes those three.
- Floating point is not modelled: the arithmetic is on exact reals. NaN and infinities cannot arise, so `alpha1 / life` with a zero life is excluded instead (see AddParticle).
- Particles.ParticleSystem.AddParticle: requires a type whose life range excludes 0. With life 0 the source computes a NaN or infinite fade speed, which exact reals cannot express.
- Particles.ParticleEmitter.Burst: requires a non-zero life range for the same reason.
- Particles.ConvertRange: requires min != max, where the source divides by zero.
- Particle motion is only bounded. The trajectory uses the host's cos and sin, which are left as uninterpreted bounded functions (`Nudge`).
- Particles.ParticleSystem.Update: live particles are values held in the array. The source's `indexOf(particle)` finds the visited element itself, because every particle is a fresh object, so the model removes at the visited index. The source also updates the removed particle object after removal. No one refers to that object, so the update is not modelled. Particles.ParticleSystem.VisitParticle requires an index inside the array, because forEach calls back only for indices that are still present.
- FishClass.Fish.HandleStates: requires that a fish moving to a target has one. In the source, `target.obj` null in that state would throw, and no path of the program gets there. FishClass.Fish.FoodTimer and FishClass.Fish.Switch require the same.
- FishClass.Fish.MoveToTarget: requires a target object, for the same reason. FishClass.Fish.Approach requires the same.
- FishClass.Fish.Update: requires the fish invariant `Valid()`: speeds fit the state, and a moving fish has a target. The constructor establishes it and update keeps it. FishClass.Fish.Navigate requires the same.
- FishClass.Fish.NearestInstance: requires a non-empty array. The source reads `arr[0].distance`, which throws on an empty array, and its only caller returns early in that case. FishClass.Fish.SortByDistance requires the same. FishClass.Fish.TakeNearest and FishClass.Fish.ClearDistance also require every pellet to carry its distance already, which is what the forEach at src/Fish.js:270-272 leaves behind.
- Misc.AnimationWave: requires a non-zero duration. The source divides by it. Fishes.AnimationWave requires the same, and so does Fishes.Wiggle whenever it uses the wave.
- Square roots are not modelled: all distance comparisons are on squares, and a pellet's `distance` property holds the squared distance.
- `Math.sin` and `Math.cos` are clamped to [-1, 1] in the model, and an engine sort order that is not a permutation is replaced by the identity. Neither change affects real hosts.
- `Date.now()` is read once per call, as `Env.nowMs`.
- The AVOIDING case subtracts 180 from an angle in radians. The model keeps that as written.
- A new idling target point is strictly below W and H only when the canvas is not empty. For an empty canvas it is 0.
- The spawn formula of `main.js` is kept as written. It gives coordinates in [-margin, extent - margin), not in [margin, extent - margin).
- A zero `dt` is not a no-op in the source: rattle is not scaled by `dt`, and a timer at 0 still fires. The model keeps that.
