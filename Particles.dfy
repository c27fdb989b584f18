/** The particle system (src/ParticleSystem.js): particle types, the live
    particles a system ages, fades, moves and removes, and emitters that burst
    particles into a rectangular region.

    A live particle is a plain record that only the system's array refers to,
    so the model keeps it as a value in the array and an update in place
    becomes a replacement of the array element. */
module Particles {
  import opened Host
  import opened Js
  import opened Misc

  /** The image a particle type is drawn with. */
  datatype Sprite = Sprite(src: string)

  /** The per-particle wiggle offset: randomRange(-.1, .1), so an animation
      period of 1 + offset never vanishes. */
  type Offset = w: real | -0.1 <= w < 0.1

  /** The `Particle` class of the program: the type of a particle, holding
      the ranges new particles are drawn from and their per-second
      increments. */
  class Particle {
    var sprite: Option<Sprite>
    var sizeMin: real
    var sizeMax: real
    var sizeIncr: real
    var sizeWiggle: real
    var xScale: real
    var yScale: real
    var color: string
    var alpha1: real
    var alpha2: real
    var speedMin: real
    var speedMax: real
    var speedIncr: real
    var speedWiggle: real
    var dirMin: real
    var dirMax: real
    var dirIncr: real
    var dirWiggle: real
    var angMin: real
    var angMax: real
    var angIncr: real
    var anglWiggle: real
    var angRelative: real
    var gravAmount: real
    var gravDir: real
    var lifeMin: real
    var lifeMax: real

    /** The defaults the source's constructor installs through its setters. */
    constructor ()
      ensures sprite == None
      ensures sizeMin == 6.0 && sizeMax == 8.0 && sizeIncr == 0.0 && sizeWiggle == 0.0
      ensures xScale == 1.0 && yScale == 1.0
      ensures color == "black"
      ensures alpha1 == 0.2 && alpha2 == 0.0
      ensures speedMin == 0.8 && speedMax == 1.2 && speedIncr == 0.0 && speedWiggle == 0.0
      ensures dirMin == -80.0 && dirMax == -100.0 && dirIncr == 0.0 && dirWiggle == 30.0
      ensures gravAmount == 0.001 && gravDir == 90.0
      ensures angMin == 0.0 && angMax == 359.0 && angIncr == 0.0 && anglWiggle == 0.0 && angRelative == 1.0
      ensures lifeMin == 100.0 && lifeMax == 200.0
      ensures LifeNonZero()
    {
      sprite := None;
      sizeMin, sizeMax, sizeIncr, sizeWiggle := 6.0, 8.0, 0.0, 0.0;
      xScale, yScale := 1.0, 1.0;
      color := "black";
      alpha1, alpha2 := 0.2, 0.0;
      speedMin, speedMax, speedIncr, speedWiggle := 0.8, 1.2, 0.0, 0.0;
      dirMin, dirMax, dirIncr, dirWiggle := -80.0, -100.0, 0.0, 30.0;
      gravAmount, gravDir := 0.001, 90.0;
      angMin, angMax, angIncr, anglWiggle, angRelative := 0.0, 359.0, 0.0, 0.0, 1.0;
      lifeMin, lifeMax := 100.0, 200.0;
    }

    /** Every life drawn from [lifeMin, lifeMax] is non-zero, so that the
        fade speed alpha1 / life is a number. */
    predicate LifeNonZero()
      reads this
    {
      0.0 < Min(lifeMin, lifeMax) || Max(lifeMin, lifeMax) < 0.0
    }

    method SetSprite(sprite: Option<Sprite>)
      modifies this`sprite
      ensures this.sprite == sprite
    {
      this.sprite := sprite;
    }

    method SetSize(sizeMin: real, sizeMax: real, sizeIncr: real, sizeWiggle: real)
      modifies this`sizeMin, this`sizeMax, this`sizeIncr, this`sizeWiggle
      ensures this.sizeMin == sizeMin && this.sizeMax == sizeMax
      ensures this.sizeIncr == sizeIncr && this.sizeWiggle == sizeWiggle
    {
      this.sizeMin := sizeMin;
      this.sizeMax := sizeMax;
      this.sizeIncr := sizeIncr;
      this.sizeWiggle := sizeWiggle;
    }

    method SetScale(xScale: real, yScale: real)
      modifies this`xScale, this`yScale
      ensures this.xScale == xScale && this.yScale == yScale
    {
      this.xScale := xScale;
      this.yScale := yScale;
    }

    method SetAlpha(alpha1: real, alpha2: real)
      modifies this`alpha1, this`alpha2
      ensures this.alpha1 == alpha1 && this.alpha2 == alpha2
    {
      this.alpha1 := alpha1;
      this.alpha2 := alpha2;
    }

    method SetSpeed(speedMin: real, speedMax: real, speedIncr: real, speedWiggle: real)
      modifies this`speedMin, this`speedMax, this`speedIncr, this`speedWiggle
      ensures this.speedMin == speedMin && this.speedMax == speedMax
      ensures this.speedIncr == speedIncr && this.speedWiggle == speedWiggle
    {
      this.speedMin := speedMin;
      this.speedMax := speedMax;
      this.speedIncr := speedIncr;
      this.speedWiggle := speedWiggle;
    }

    method SetDirection(dirMin: real, dirMax: real, dirIncr: real, dirWiggle: real)
      modifies this`dirMin, this`dirMax, this`dirIncr, this`dirWiggle
      ensures this.dirMin == dirMin && this.dirMax == dirMax
      ensures this.dirIncr == dirIncr && this.dirWiggle == dirWiggle
    {
      this.dirMin := dirMin;
      this.dirMax := dirMax;
      this.dirIncr := dirIncr;
      this.dirWiggle := dirWiggle;
    }

    method SetOrientation(angMin: real, angMax: real, angIncr: real, anglWiggle: real, angRelative: real)
      modifies this`angMin, this`angMax, this`angIncr, this`anglWiggle, this`angRelative
      ensures this.angMin == angMin && this.angMax == angMax && this.angIncr == angIncr
      ensures this.anglWiggle == anglWiggle && this.angRelative == angRelative
    {
      this.angMin := angMin;
      this.angMax := angMax;
      this.angIncr := angIncr;
      this.anglWiggle := anglWiggle;
      this.angRelative := angRelative;
    }

    method SetGravity(gravAmount: real, gravDir: real)
      modifies this`gravAmount, this`gravDir
      ensures this.gravAmount == gravAmount && this.gravDir == gravDir
    {
      this.gravAmount := gravAmount;
      this.gravDir := gravDir;
    }

    method SetColor(color: string)
      modifies this`color
      ensures this.color == color
    {
      this.color := color;
    }

    method SetLife(lifeMin: real, lifeMax: real)
      modifies this`lifeMin, this`lifeMax
      ensures this.lifeMin == lifeMin && this.lifeMax == lifeMax
    {
      this.lifeMin := lifeMin;
      this.lifeMax := lifeMax;
    }
  }

  /** A live particle: the record addParticle pushes. `kind` is the
      particle's type, shared with every particle made from it. */
  datatype LiveParticle = LiveParticle(
    kind: Particle,
    x: real,
    y: real,
    size: real,
    alpha: real,
    speed: real,
    dir: real,
    angle: real,
    life: real,
    fadeSpd: real,
    wiggleOffset: Offset)

  /** The particle addParticle(t, x, y) pushes, with the stream after its
      draws: life, size, speed, direction, angle and wiggle offset, in that
      order. */
  function Spawn(t: Particle, x: real, y: real, d: Draws): (r: (LiveParticle, Draws))
    requires t.LifeNonZero()
    reads t
  {
    var life := RangeDraw(t.lifeMin, t.lifeMax, d);
    var size := RangeDraw(t.sizeMin, t.sizeMax, life.1);
    var speed := RangeDraw(t.speedMin, t.speedMax, size.1);
    var dir := RangeDraw(t.dirMin, t.dirMax, speed.1);
    var angle := RangeDraw(t.angMin, t.angMax, dir.1);
    var w := RangeDraw(-0.1, 0.1, angle.1);
    (LiveParticle(t, x, y, size.0, t.alpha1, speed.0, dir.0, angle.0, life.0, t.alpha1 / life.0, w.0), w.1)
  }

  /** A new particle starts where it is put, at the type's starting alpha,
      with every drawn quantity inside the type's range and a fade speed that
      takes alpha from alpha1 to zero in one lifetime; it takes one to six
      draws (one for the wiggle offset at least). */
  lemma SpawnFacts(t: Particle, x: real, y: real, d: Draws)
    requires t.LifeNonZero()
    ensures var (p, d') := Spawn(t, x, y, d);
      && p.kind == t && p.x == x && p.y == y && p.alpha == t.alpha1
      && Min(t.lifeMin, t.lifeMax) <= p.life <= Max(t.lifeMin, t.lifeMax)
      && Min(t.sizeMin, t.sizeMax) <= p.size <= Max(t.sizeMin, t.sizeMax)
      && Min(t.speedMin, t.speedMax) <= p.speed <= Max(t.speedMin, t.speedMax)
      && Min(t.dirMin, t.dirMax) <= p.dir <= Max(t.dirMin, t.dirMax)
      && Min(t.angMin, t.angMax) <= p.angle <= Max(t.angMin, t.angMax)
      && p.fadeSpd * p.life == t.alpha1
      && d'.source == d.source && d.used + 1 <= d'.used <= d.used + 6
  {
  }

  /** One round of burst: a position drawn in the region x1..x2, y1..y2,
      then addParticle there. */
  function BurstRound(t: Particle, x1: real, x2: real, y1: real, y2: real, d: Draws): (r: (LiveParticle, Draws))
    requires t.LifeNonZero()
    reads t
  {
    var x := RangeDraw(x1, x2, d);
    var y := RangeDraw(y1, y2, x.1);
    Spawn(t, x.0, y.0, y.1)
  }

  /** p is of type t, at the type's starting alpha, inside the region. */
  predicate Burstling(p: LiveParticle, t: Particle, x1: real, x2: real, y1: real, y2: real)
    reads t
  {
    && p.kind == t && p.alpha == t.alpha1
    && Min(x1, x2) <= p.x <= Max(x1, x2)
    && Min(y1, y2) <= p.y <= Max(y1, y2)
  }

  /** A round puts a particle of type t, at the type's starting alpha,
      inside the region. */
  lemma BurstRoundInRegion(t: Particle, x1: real, x2: real, y1: real, y2: real, d: Draws)
    requires t.LifeNonZero()
    ensures Burstling(BurstRound(t, x1, x2, y1, y2, d).0, t, x1, x2, y1, y2)
  {
    var x := RangeDraw(x1, x2, d);
    var y := RangeDraw(y1, y2, x.1);
    SpawnFacts(t, x.0, y.0, y.1);
  }

  /** burst(t, n): n rounds. */
  function BurstSpec(t: Particle, x1: real, x2: real, y1: real, y2: real, n: nat, ps: seq<LiveParticle>, d: Draws): (r: (seq<LiveParticle>, Draws))
    requires t.LifeNonZero()
    reads t
    decreases n
  {
    if n == 0 then (ps, d)
    else
      var round := BurstRound(t, x1, x2, y1, y2, d);
      BurstSpec(t, x1, x2, y1, y2, n - 1, ps + [round.0], round.1)
  }

  /** A burst of n appends exactly n particles behind the existing ones. */
  lemma {:induction false} BurstAppends(t: Particle, x1: real, x2: real, y1: real, y2: real, n: nat, ps: seq<LiveParticle>, d: Draws)
    requires t.LifeNonZero()
    ensures var r := BurstSpec(t, x1, x2, y1, y2, n, ps, d).0;
      |r| == |ps| + n && r[..|ps|] == ps
    decreases n
  {
    if n > 0 {
      var round := BurstRound(t, x1, x2, y1, y2, d);
      var ps1 := ps + [round.0];
      BurstAppends(t, x1, x2, y1, y2, n - 1, ps1, round.1);
      var r := BurstSpec(t, x1, x2, y1, y2, n - 1, ps1, round.1).0;
      assert r[..|ps1|][..|ps|] == ps;
    }
  }

  /** Each particle a burst appends is of type t, at the type's starting
      alpha, inside the region. */
  lemma {:induction false} BurstInRegion(t: Particle, x1: real, x2: real, y1: real, y2: real, n: nat, ps: seq<LiveParticle>, d: Draws)
    requires t.LifeNonZero()
    ensures var r := BurstSpec(t, x1, x2, y1, y2, n, ps, d).0;
      forall i :: |ps| <= i < |r| ==> Burstling(r[i], t, x1, x2, y1, y2)
    decreases n
  {
    if n > 0 {
      var round := BurstRound(t, x1, x2, y1, y2, d);
      BurstRoundInRegion(t, x1, x2, y1, y2, d);
      var ps1 := ps + [round.0];
      BurstInRegion(t, x1, x2, y1, y2, n - 1, ps1, round.1);
      BurstAppends(t, x1, x2, y1, y2, n - 1, ps1, round.1);
      var r := BurstSpec(t, x1, x2, y1, y2, n - 1, ps1, round.1).0;
      assert r[|ps|] == r[..|ps1|][|ps|] == round.0;
    }
  }

  /** A particle whose life and alpha have both run out; update removes it. */
  predicate Expired(p: LiveParticle)
  {
    p.life <= 0.0 && p.alpha <= 0.0
  }

  /** The first half of update's callback (lines 44-49): a living particle
      loses dt of life, a dead one fades towards zero alpha. */
  function Age(p: LiveParticle, dt: real): (q: LiveParticle)
    requires !Expired(p)
  {
    if p.life > 0.0 then p.(life := p.life - 1.0 * dt)
    else p.(alpha := Max(p.alpha - p.fadeSpd * dt, 0.0))
  }

  /** The second half of update's callback: the increments, the direction
      wiggle and one step along the direction plus one step of gravity. */
  function Drift(p: LiveParticle, dt: real, env: Env): (q: LiveParticle)
    reads p.kind
  {
    var t := p.kind;
    var dir := p.dir + t.dirIncr * dt;
    var h := Heading(t, dir, p.wiggleOffset, env);
    var g := DegToRad(t.gravDir);
    p.(angle := p.angle + t.angIncr * dt, dir := dir, size := p.size + t.sizeIncr * dt,
       x := Nudge(p.x, p.speed * dt, env.Cos(h), t.gravAmount * dt, env.Cos(g)),
       y := Nudge(p.y, p.speed * dt, env.Sin(h), t.gravAmount * dt, env.Sin(g)))
  }

  /** The direction of travel in radians: dir, wiggled when the type asks
      for it. */
  function Heading(t: Particle, dir: real, w: Offset, env: Env): real
    reads t
  {
    DegToRad(if t.dirWiggle > 0.0 then dir + AnimationWave(t.dirWiggle, 1.0 + w, env) else dir)
  }

  /** A coordinate after a step of length a and one of length b, along
      directions whose cosine (or sine) is ca and cb. */
  function Nudge(v: real, a: real, ca: real, b: real, cb: real): (w: real)
    requires -1.0 <= ca <= 1.0 && -1.0 <= cb <= 1.0
    ensures Abs(w - v) <= Abs(a) + Abs(b)
  {
    ScaledByUnit(a, ca);
    ScaledByUnit(b, cb);
    v + a * ca + b * cb
  }

  function Step(p: LiveParticle, dt: real, env: Env): LiveParticle
    requires !Expired(p)
    reads p.kind
  {
    Drift(Age(p, dt), dt, env)
  }

  /** The types the particles of ps belong to. */
  function Kinds(ps: seq<LiveParticle>): set<Particle>
  {
    set p | p in ps :: p.kind
  }

  /** forEach's visit of index k: an expired particle is spliced out of
      the array, any other is stepped in place. */
  function Visit(ps: seq<LiveParticle>, k: nat, dt: real, env: Env): (r: seq<LiveParticle>)
    requires k < |ps|
    reads Kinds(ps)
    ensures Kinds(r) <= Kinds(ps)
  {
    if Expired(ps[k]) then
      var r := Splice1(ps, k);
      assert forall p | p in r :: p in ps;
      r
    else
      var q := Step(ps[k], dt, env);
      assert forall p | p in ps[k := q] :: p == q || p in ps;
      ps[k := q]
  }

  /** update's forEach, from index k on, over an array that had n elements
      when the loop began. forEach visits each index below n that is still
      inside the array; a removal shifts the rest of the array left, so the
      particle behind a removed one is not visited in that frame. */
  function Sweep(ps: seq<LiveParticle>, k: nat, n: nat, dt: real, env: Env): seq<LiveParticle>
    reads Kinds(ps)
    decreases n - k
  {
    if k >= n || k >= |ps| then ps
    else Sweep(Visit(ps, k, dt, env), k + 1, n, dt, env)
  }

  /** A particle alive or merely fading is aged exactly as the source says:
      life drops by dt while it lasts, then alpha drops by fadeSpd * dt but
      never below zero; nothing else about it changes. */
  lemma AgeCountsDown(p: LiveParticle, dt: real)
    requires !Expired(p)
    ensures var q := Age(p, dt);
      && (p.life > 0.0 ==> q.life == p.life - dt && q.alpha == p.alpha)
      && (p.life <= 0.0 ==>
            && q.life == p.life && q.alpha >= 0.0 && q.alpha >= p.alpha - p.fadeSpd * dt
            && (q.alpha == 0.0 || q.alpha == p.alpha - p.fadeSpd * dt))
      && (p.alpha >= 0.0 ==> q.alpha >= 0.0)
      && (dt > 0.0 && p.fadeSpd >= 0.0 ==> q.alpha <= p.alpha)
      && q.(life := p.life, alpha := p.alpha) == p
  {
    if p.life <= 0.0 && dt > 0.0 && p.fadeSpd >= 0.0 {
      MulNonNeg(p.fadeSpd, dt);
    }
  }

  /** Drift adds each increment times dt and keeps the particle's life,
      alpha, speed and type; Nudge bounds how far it moves. */
  lemma DriftMoves(p: LiveParticle, dt: real, env: Env)
    ensures var q := Drift(p, dt, env);
      && q.angle == p.angle + p.kind.angIncr * dt
      && q.dir == p.dir + p.kind.dirIncr * dt
      && q.size == p.size + p.kind.sizeIncr * dt
      && q.kind == p.kind && q.life == p.life && q.alpha == p.alpha && q.speed == p.speed
      && q.fadeSpd == p.fadeSpd && q.wiggleOffset == p.wiggleOffset
  {
  }

  /** With no expired particle left to visit, a sweep keeps every particle
      and steps each visited one exactly once. */
  lemma {:induction false} SweepStepsAll(ps: seq<LiveParticle>, k: nat, dt: real, env: Env)
    requires k <= |ps|
    requires forall i :: k <= i < |ps| ==> !Expired(ps[i])
    ensures var r := Sweep(ps, k, |ps|, dt, env);
      && |r| == |ps|
      && r[..k] == ps[..k]
      && forall i :: k <= i < |ps| ==> r[i] == Step(ps[i], dt, env)
    decreases |ps| - k
  {
    if k < |ps| {
      var ps1 := Visit(ps, k, dt, env);
      assert ps1 == ps[k := Step(ps[k], dt, env)];
      SweepStepsAll(ps1, k + 1, dt, env);
      assert ps1[..k + 1][..k] == ps[..k];
    }
  }

  /** The splice quirk: of two expired particles side by side, only the
      first leaves in this frame; the second moves into the visited slot and
      stays, untouched, for the next frame. */
  lemma SweepSkipsNext(a: LiveParticle, b: LiveParticle, dt: real, env: Env)
    requires Expired(a) && Expired(b)
    ensures Sweep([a, b], 0, 2, dt, env) == [b]
  {
    assert Visit([a, b], 0, dt, env) == [b];
  }

  /** How many of the particles in ps are expired. */
  function CountExpired(ps: seq<LiveParticle>): nat
  {
    if |ps| == 0 then 0 else (if Expired(ps[0]) then 1 else 0) + CountExpired(ps[1..])
  }

  lemma {:induction false} CountExpiredBound(ps: seq<LiveParticle>)
    ensures CountExpired(ps) <= |ps|
    ensures |ps| > 0 ==> CountExpired(ps[1..]) <= CountExpired(ps)
  {
    if |ps| > 0 {
      CountExpiredBound(ps[1..]);
    }
  }

  /** A sweep never adds particles and removes at most the expired ones
      among those it could visit. */
  lemma {:induction false} SweepRemovesOnlyExpired(ps: seq<LiveParticle>, k: nat, n: nat, dt: real, env: Env)
    requires k <= |ps|
    ensures var r := Sweep(ps, k, n, dt, env);
      |ps| - CountExpired(ps[k..]) <= |r| <= |ps|
    decreases n - k
  {
    if k < n && k < |ps| {
      var tail := ps[k..];
      assert tail[1..] == ps[k + 1..];
      if Expired(ps[k]) {
        var ps1 := Visit(ps, k, dt, env);
        assert ps1 == ps[..k] + ps[k + 1..];
        CountExpiredBound(ps[k + 1..]);
        if k + 1 <= |ps1| {
          assert ps1[k + 1..] == ps[k + 1..][1..];
          SweepRemovesOnlyExpired(ps1, k + 1, n, dt, env);
        }
      } else {
        var ps1 := Visit(ps, k, dt, env);
        assert ps1[k + 1..] == ps[k + 1..];
        SweepRemovesOnlyExpired(ps1, k + 1, n, dt, env);
      }
    } else {
      CountExpiredBound(ps[k..]);
    }
  }

  predicate AlphasNonNegative(ps: seq<LiveParticle>)
  {
    forall p | p in ps :: p.alpha >= 0.0
  }

  /** No particle ever shows a negative alpha: sweeps keep alpha >= 0. */
  lemma {:induction false} SweepKeepsAlpha(ps: seq<LiveParticle>, k: nat, n: nat, dt: real, env: Env)
    requires AlphasNonNegative(ps)
    ensures AlphasNonNegative(Sweep(ps, k, n, dt, env))
    decreases n - k
  {
    if k < n && k < |ps| {
      var ps1 := Visit(ps, k, dt, env);
      if !Expired(ps[k]) {
        AgeCountsDown(ps[k], dt);
        DriftMoves(Age(ps[k], dt), dt, env);
        assert ps1 == ps[k := Step(ps[k], dt, env)];
      }
      assert forall p | p in ps1 :: p in ps || p == ps1[k];
      SweepKeepsAlpha(ps1, k + 1, n, dt, env);
    }
  }

  /** convertRange(min, max, value): where value sits between min (0) and
      max (1). */
  function ConvertRange(min: real, max: real, value: real): (r: real)
    requires max != min
    ensures r * (max - min) == value - min
  {
    ((value - min) * (1.0 - 0.0)) / (max - min)
  }

  lemma ConvertRangeEnds(min: real, max: real, value: real)
    requires max != min
    ensures ConvertRange(min, max, min) == 0.0
    ensures ConvertRange(min, max, max) == 1.0
    ensures min < max && min <= value <= max ==> 0.0 <= ConvertRange(min, max, value) <= 1.0
  {
    QuotientFacts(value - min, max - min);
  }

  lemma QuotientFacts(a: real, c: real)
    requires c != 0.0
    ensures (a * (1.0 - 0.0)) / c == a / c
    ensures 0.0 / c == 0.0 && c / c == 1.0
    ensures c > 0.0 && 0.0 <= a <= c ==> 0.0 <= a / c <= 1.0
  {
  }

  /** The `ParticleSystem` class: the live particles and the emitters. */
  class ParticleSystem {
    var emitters: seq<ParticleEmitter>
    var particles: seq<LiveParticle>

    constructor ()
      ensures emitters == [] && particles == []
    {
      emitters := [];
      particles := [];
    }

    /** update(dt): one pass of forEach over the array. */
    method Update(dt: real, env: Env)
      modifies this`particles
      ensures particles == old(Sweep(particles, 0, |particles|, dt, env))
    {
      var n := |particles|;
      ghost var swept := Sweep(particles, 0, n, dt, env);
      var k := 0;
      while k < n
        invariant k <= n
        invariant Sweep(particles, k, n, dt, env) == swept
        decreases n - k
      {
        if k < |particles| {
          VisitParticle(k, n, dt, env);
        }
        k := k + 1;
      }
    }

    /** The forEach callback of update for the particle at index k: age and
        move it, or remove it once it has faded out. */
    method VisitParticle(k: nat, ghost n: nat, dt: real, env: Env)
      requires k < |particles|
      modifies this`particles
      ensures particles == old(Visit(particles, k, dt, env))
      ensures k < n ==> Sweep(particles, k + 1, n, dt, env) == old(Sweep(particles, k, n, dt, env))
    {
      var p := particles[k];
      if !Expired(p) {
        particles := particles[k := Drift(Age(p, dt), dt, env)];
      } else {
        // indexOf finds the visited particle itself, at index k
        RemoveParticle(k);
      }
    }

    /** addParticle(t, x, y). */
    method AddParticle(t: Particle, x: real, y: real, rng: Rng)
      requires t.LifeNonZero()
      modifies this`particles, rng`used
      ensures (particles, rng.Stream()) == old(var (p, d) := Spawn(t, x, y, rng.Stream()); (particles + [p], d))
    {
      var life := DrawRandomRange(rng, t.lifeMin, t.lifeMax);
      var size := DrawRandomRange(rng, t.sizeMin, t.sizeMax);
      var speed := DrawRandomRange(rng, t.speedMin, t.speedMax);
      var dir := DrawRandomRange(rng, t.dirMin, t.dirMax);
      var angle := DrawRandomRange(rng, t.angMin, t.angMax);
      var w := DrawRandomRange(rng, -0.1, 0.1);
      particles := particles + [LiveParticle(t, x, y, size, t.alpha1, speed, dir, angle, life, t.alpha1 / life, w)];
    }

    /** removeParticle(index): splice(index, 1). */
    method RemoveParticle(index: int)
      modifies this`particles
      ensures particles == Splice1(old(particles), index)
    {
      particles := Splice1(particles, index);
    }
  }

  /** The `ParticleEmitter` class: a region of a particle system where
      bursts appear. */
  class ParticleEmitter {
    const ps: ParticleSystem
    var x1: real
    var x2: real
    var y1: real
    var y2: real

    constructor (ps: ParticleSystem)
      ensures this.ps == ps && x1 == 0.0 && x2 == 0.0 && y1 == 0.0 && y2 == 0.0
    {
      this.ps := ps;
      x1, x2, y1, y2 := 0.0, 0.0, 0.0, 0.0;
    }

    method SetRegion(x1: real, x2: real, y1: real, y2: real)
      modifies this`x1, this`x2, this`y1, this`y2
      ensures this.x1 == x1 && this.x2 == x2 && this.y1 == y1 && this.y2 == y2
    {
      this.x1 := x1;
      this.x2 := x2;
      this.y2 := y2;
      this.y1 := y1;
    }

    /** burst(t, amount): `for (i = 0; i < amount; i++)` rounds of a random
        position in the region and addParticle there. */
    method Burst(t: Particle, amount: real, rng: Rng)
      requires t.LifeNonZero()
      modifies ps`particles, rng`used
      ensures (ps.particles, rng.Stream())
        == old(BurstSpec(t, x1, x2, y1, y2, LoopCount(amount), ps.particles, rng.Stream()))
    {
      var n := LoopCount(amount);
      var i := 0;
      while i < n
        invariant i <= n
        invariant BurstSpec(t, x1, x2, y1, y2, n - i, ps.particles, rng.Stream())
          == old(BurstSpec(t, x1, x2, y1, y2, LoopCount(amount), ps.particles, rng.Stream()))
        decreases n - i
      {
        Round(t, rng);
        i := i + 1;
      }
    }

    /** The body of burst's loop. */
    method Round(t: Particle, rng: Rng)
      requires t.LifeNonZero()
      modifies ps`particles, rng`used
      ensures (ps.particles, rng.Stream())
        == old(var round := BurstRound(t, x1, x2, y1, y2, rng.Stream()); (ps.particles + [round.0], round.1))
    {
      var x := DrawRandomRange(rng, x1, x2);
      var y := DrawRandomRange(rng, y1, y2);
      ps.AddParticle(t, x, y, rng);
    }
  }
}
