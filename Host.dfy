/** What the simulation takes from its JavaScript host, made explicit so that
    the model is deterministic: the Math library (PI, abs/min/max, sin, cos,
    atan2), the order the engine's `Array.prototype.sort` leaves an array in,
    `Date.now()`, the cursor position, the canvas size and `Math.random()`. */
module Host {
  import opened Js

  /** A value that may be JavaScript's null (or a missing property). */
  datatype Option<T> = None | Some(value: T)

  /** Math.PI, the double closest to pi. */
  const PI: real := 3.141592653589793

  function Abs(x: real): real { if x < 0.0 then -x else x }

  function Min(a: real, b: real): real { if a <= b then a else b }

  function Max(a: real, b: real): real { if a >= b then a else b }

  /** Products of non-negative (positive) numbers are non-negative (positive). */
  lemma MulNonNeg(a: real, b: real)
    requires a >= 0.0 && b >= 0.0
    ensures a * b >= 0.0 && (a > 0.0 && b > 0.0 ==> a * b > 0.0)
  {
  }

  /** A square is non-negative, and positive away from zero. */
  lemma Square(a: real)
    ensures a * a >= 0.0
    ensures a != 0.0 ==> a * a > 0.0
  {
    if a > 0.0 {
      MulNonNeg(a, a);
    } else if a < 0.0 {
      var b := -a;
      MulNonNeg(b, b);
      assert b * b == a * a;
    }
  }

  /** A number m scaled by a value in [-1, 1] stays within |m| of zero. */
  lemma ScaledByUnit(m: real, s: real)
    requires -1.0 <= s <= 1.0
    ensures -Abs(m) <= m * s <= Abs(m)
  {
    var a := Abs(m);
    MulNonNeg(a, 1.0 - s);
    MulNonNeg(a, 1.0 + s);
    assert a * (1.0 - s) == a - a * s && a * (1.0 + s) == a + a * s;
    if m < 0.0 {
      assert m * s == -(a * s);
    }
  }

  /** A fraction in [0, 1) of a non-negative extent w lies in [0, w], and
      below w when w is positive. */
  lemma ScaleFraction(r: real, w: real)
    requires 0.0 <= r < 1.0 && w >= 0.0
    ensures 0.0 <= r * w <= w
    ensures w > 0.0 ==> r * w < w
  {
    MulNonNeg(r, w);
    MulNonNeg(1.0 - r, w);
    assert (1.0 - r) * w == w - r * w;
  }

  /** `Math.random() * extent`: a point of [0, extent), or 0 for an empty
      extent. */
  function RandomCoordinate(r: real, extent: Size): (v: real)
    requires 0.0 <= r < 1.0
    ensures 0.0 <= v <= extent
    ensures extent > 0.0 ==> v < extent
  {
    ScaleFraction(r, extent);
    r * extent
  }

  /** `base + Math.random() * width`, the way the simulation draws its
      timers, speeds and offsets. */
  function Draw(base: real, r: real, width: real): (v: real)
  {
    base + r * width
  }

  /** A value Math.random() can return. */
  type Prob = r: real | 0.0 <= r < 1.0

  /** A canvas dimension (clientWidth / clientHeight). */
  type Size = r: real | 0.0 <= r

  /** Everything read-only that one update reads from outside the core: the
      host's Math.sin, Math.cos and Math.atan2, the order its sort leaves an
      array in (as a permutation of indices, see SortOrder), Date.now(), the
      cursor position and the canvas size. */
  datatype Env = Env(
    sin: real -> real,
    cos: real -> real,
    atan2: (real, real) -> real,
    sortOrder: seq<real> -> seq<nat>,
    nowMs: real,      // Date.now()
    mouseX: real,     // getMouseX()
    mouseY: real,     // getMouseY()
    width: Size,      // GAME_WIDTH
    height: Size)     // GAME_HEIGHT
  {
    /** Math.sin(t). A sine never leaves [-1, 1]; the bound is written into
        the model here (it changes nothing for the real sine) so that the
        proofs can use it. */
    function Sin(t: real): (v: real)
      ensures -1.0 <= v <= 1.0
    {
      Max(-1.0, Min(1.0, sin(t)))
    }

    /** Math.cos(t), bounded in the same way. */
    function Cos(t: real): (v: real)
      ensures -1.0 <= v <= 1.0
    {
      Max(-1.0, Min(1.0, cos(t)))
    }

    /** The order in which the engine's sort leaves an array whose elements
        carry the given keys (position k of the result holds the element that
        was at index p[k]). The comparator the simulation passes to sort is
        not a consistent comparator, so the language leaves the order to the
        implementation, but the outcome is always a rearrangement of the
        array; that is written into the model here. */
    function SortOrder(keys: seq<real>): (p: seq<nat>)
      ensures IsPermutation(p, |keys|)
    {
      var p := sortOrder(keys);
      if IsPermutation(p, |keys|) then p else Identity(|keys|)
    }
  }

  /** A position in the stream of Math.random() values: the next call
      returns source(used). */
  datatype Draws = Draws(source: nat -> Prob, used: nat)
  {
    /** The value the k-th call from here returns (counting from 0). */
    function At(k: nat): (v: real)
      ensures 0.0 <= v < 1.0
    {
      source(used + k)
    }

    /** The stream after k more calls. */
    function Skip(k: nat): Draws { Draws(source, used + k) }
  }

  /** Math.random() as an explicit stream: the k-th call returns source(k). */
  class Rng {
    const source: nat -> Prob
    var used: nat

    constructor (source: nat -> Prob)
      ensures this.source == source && used == 0
    {
      this.source := source;
      used := 0;
    }

    function Stream(): Draws
      reads this
    {
      Draws(source, used)
    }

    /** n calls of Math.random() in a row, in order. */
    method RandomN(n: nat) returns (rs: seq<Prob>)
      modifies this`used
      ensures |rs| == n && used == old(used) + n
      ensures forall k :: 0 <= k < n ==> rs[k] == old(Stream()).At(k)
    {
      rs := [];
      while |rs| < n
        invariant |rs| <= n && used == old(used) + |rs|
        invariant forall k :: 0 <= k < |rs| ==> rs[k] == old(Stream()).At(k)
      {
        var r := Random();
        rs := rs + [r];
      }
    }

    method Random() returns (r: Prob)
      modifies this`used
      ensures r == source(old(used)) && used == old(used) + 1
    {
      r := source(used);
      used := used + 1;
    }
  }
}
