/** The numeric helpers of the simulation (src/misc.js). Each helper that
    calls Math.random() takes the drawn value r as a parameter; the Draw*
    methods make the same calls against the Rng stream, drawing exactly as
    many values as the JavaScript does. */
module Misc {
  import opened Host

  /** The phase animationWave feeds to Math.sin: one full turn per `duration`
      seconds of wall-clock time. */
  function WavePhase(nowMs: real, duration: real): real
    requires duration != 0.0
  {
    ((nowMs / 1000.0 + duration) / duration) * (PI * 2.0)
  }

  /** animationWave(range, duration): half-amplitude oscillation below zero. */
  function AnimationWave(range: real, duration: real, env: Env): (v: real)
    requires duration != 0.0
    ensures range >= 0.0 ==> -range <= v <= 0.0
  {
    var a4 := range * 0.5;
    var s := env.Sin(WavePhase(env.nowMs, duration));
    ScaledByUnit(a4, s);
    -range + a4 + s * a4
  }

  function DegToRad(degrees: real): (rad: real)
    ensures degrees == 180.0 ==> rad == PI
    ensures degrees == 90.0 ==> rad == PI / 2.0
    ensures rad == 0.0 <==> degrees == 0.0
    ensures rad > 0.0 <==> degrees > 0.0
  {
    degrees * (PI / 180.0)
  }

  /** radToDeg undoes degToRad. */
  function RadToDeg(rad: real): (degrees: real)
    ensures DegToRad(degrees) == rad
  {
    rad / (PI / 180.0)
  }

  /** degToRad undoes radToDeg as well. */
  lemma DegToRadRoundTrip(degrees: real)
    ensures RadToDeg(DegToRad(degrees)) == degrees
  {
  }

  /** randomRange(a, b): a itself when a === b, otherwise a point of the
      half-open interval from a towards b. */
  function RandomRange(a: real, b: real, r: Prob): (v: real)
    ensures a == b ==> v == a
    ensures a < b ==> a <= v < b
    ensures b < a ==> b < v <= a
    ensures Min(a, b) <= v <= Max(a, b)
  {
    if a == b then a
    else if a < b then
      FractionOf(r, b - a, r * (b - a));
      r * (b - a) + a
    else
      FractionOf(r, a - b, r * (a - b));
      assert r * (b - a) == -(r * (a - b));
      r * (b - a) + a
  }

  /** A draw r in [0, 1) takes a fraction p = r * w of a positive width w
      that is at least 0 and below w. */
  lemma FractionOf(r: real, w: real, p: real)
    requires 0.0 <= r < 1.0 && w > 0.0 && p == r * w
    ensures 0.0 <= p < w
  {
    MulNonNeg(r, w);
    MulNonNeg(1.0 - r, w);
    assert (1.0 - r) * w == w - r * w;
  }

  /** randomRange against the stream of draws: Math.random() is consulted
      only when the bounds differ. */
  function RangeDraw(a: real, b: real, d: Draws): (r: (real, Draws))
    ensures Min(a, b) <= r.0 <= Max(a, b)
    ensures r.1 == d.Skip(if a == b then 0 else 1)
  {
    if a == b then (a, d.Skip(0)) else (RandomRange(a, b, d.At(0)), d.Skip(1))
  }

  /** randomRange as the program calls it. */
  method DrawRandomRange(rng: Rng, a: real, b: real) returns (v: real)
    modifies rng`used
    ensures v == RandomRange(a, b, rng.source(old(rng.used)))
    ensures rng.used == old(rng.used) + (if a == b then 0 else 1)
    ensures (v, rng.Stream()) == RangeDraw(a, b, old(rng.Stream()))
  {
    if a == b {
      v := a;
    } else {
      var r: real := rng.Random();
      v := r * (b - a) + a;
    }
  }

  /** irandomRange(a, b): a when a === b, otherwise randomRange rounded
      down: a whole number within one below the random value, which for
      a < b lies in (a - 1, b). */
  function IRandomRange(a: real, b: real, r: Prob): (v: real)
    ensures a == b ==> v == a
    ensures a != b ==> v == v.Floor as real
    ensures a != b ==> v <= RandomRange(a, b, r) < v + 1.0
    ensures a < b ==> a - 1.0 < v < b
  {
    if a == b then a else (r * (b - a) + a).Floor as real
  }

  /** irandomRange as the program calls it. */
  method DrawIRandomRange(rng: Rng, a: real, b: real) returns (v: real)
    modifies rng`used
    ensures v == IRandomRange(a, b, rng.source(old(rng.used)))
    ensures rng.used == old(rng.used) + (if a == b then 0 else 1)
  {
    if a == b {
      v := a;
    } else {
      var r := rng.Random();
      v := IRandomRange(a, b, r);
    }
  }

  /** lerp(n1, n2, t): the endpoints at t = 0 and t = 1. */
  function Lerp(n1: real, n2: real, t: real): (v: real)
    ensures t == 0.0 ==> v == n1
    ensures t == 1.0 ==> v == n2
  {
    (1.0 - t) * n1 + t * n2
  }

  /** For every t between 0 and 1, lerp lies between its two endpoints. */
  lemma LerpBetween(n1: real, n2: real, t: real)
    requires 0.0 <= t <= 1.0
    ensures Min(n1, n2) <= Lerp(n1, n2, t) <= Max(n1, n2)
  {
    assert Lerp(n1, n2, t) == n1 + t * (n2 - n1);
    if n2 >= n1 {
      MulNonNeg(t, n2 - n1);
      MulNonNeg(1.0 - t, n2 - n1);
    } else {
      MulNonNeg(t, n1 - n2);
      MulNonNeg(1.0 - t, n1 - n2);
    }
    assert t * (n2 - n1) + (1.0 - t) * (n2 - n1) == n2 - n1;
  }

  /** clamp(n, min, max) = Math.max(min, Math.min(n, max)). */
  function Clamp(n: real, lo: real, hi: real): (v: real)
    ensures lo <= hi ==> lo <= v <= hi
    ensures lo <= n <= hi ==> v == n
    ensures v == n || v == lo || v == hi
    ensures hi < lo ==> v == lo
  {
    Max(lo, Min(n, hi))
  }

  /** choose(a, b): a when the draw is at least one half, otherwise b. */
  function Choose<T>(a: T, b: T, r: Prob): (v: T)
    ensures v == a || v == b
    ensures r >= 0.5 ==> v == a
    ensures r < 0.5 ==> v == b
  {
    if r >= 0.5 then a else b
  }

  method DrawChoose<T>(rng: Rng, a: T, b: T) returns (v: T)
    modifies rng`used
    ensures v == Choose(a, b, rng.source(old(rng.used)))
    ensures rng.used == old(rng.used) + 1
  {
    var r := rng.Random();
    v := if r >= 0.5 then a else b;
  }

  /** choose2(a, b, c): the second draw r2 is only looked at when the first
      one does not already pick a. */
  function Choose2<T>(a: T, b: T, c: T, r1: Prob, r2: Prob): (v: T)
    ensures v == a || v == b || v == c
    ensures r1 >= 0.6666 ==> v == a
    ensures r1 < 0.6666 && r2 >= 0.3333 ==> v == b
    ensures r1 < 0.6666 && r2 < 0.3333 ==> v == c
  {
    if r1 >= 0.6666 then a else if r2 >= 0.3333 then b else c
  }

  /** choose2 as the program calls it: one draw when it returns a, two otherwise. */
  method DrawChoose2<T>(rng: Rng, a: T, b: T, c: T) returns (v: T)
    modifies rng`used
    ensures v == Choose2(a, b, c, rng.source(old(rng.used)), rng.source(old(rng.used) + 1))
    ensures rng.used == old(rng.used) + (if rng.source(old(rng.used)) >= 0.6666 then 1 else 2)
  {
    var r1 := rng.Random();
    if r1 >= 0.6666 {
      v := a;
    } else {
      var r2 := rng.Random();
      v := if r2 >= 0.3333 then b else c;
    }
  }

  /** chance(perc): true with (roughly) perc percent probability. Certain at
      100 percent or more and impossible below zero. */
  function Chance(perc: real, r: Prob): (b: bool)
    ensures perc >= 100.0 ==> b
    ensures perc < 0.0 ==> !b
    ensures b <==> r * 100.0 <= perc
  {
    r <= perc / 100.0
  }

  method DrawChance(rng: Rng, perc: real) returns (b: bool)
    modifies rng`used
    ensures b == Chance(perc, rng.source(old(rng.used)))
    ensures rng.used == old(rng.used) + 1
  {
    var r := rng.Random();
    b := r <= perc / 100.0;
  }

  /** angleDifference(a, b) = |b - a|: a distance between two angles. */
  function AngleDifference(a: real, b: real): (d: real)
    ensures d >= 0.0
    ensures d == 0.0 <==> a == b
    ensures a - d <= b <= a + d
  {
    Abs(b - a)
  }

  /** The difference does not depend on the order of its arguments. */
  lemma AngleDifferenceSymmetric(a: real, b: real)
    ensures AngleDifference(a, b) == AngleDifference(b, a)
  {
  }
}
