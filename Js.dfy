/** The few JavaScript built-ins the simulation relies on for its shared
    arrays: `indexOf`, `splice(start, 1)`, the permutation an in-place `sort`
    leaves behind, and the number of rounds of a `for (i = 0; i < n; i++)`
    loop whose bound `n` is an arbitrary number. */
module Js {

  /** `s.indexOf(x)`: the first index holding x, or -1 when there is none. */
  function IndexOf<T(==)>(s: seq<T>, x: T): (i: int)
    ensures -1 <= i < |s|
    ensures i == -1 <==> x !in s
    ensures 0 <= i ==> s[i] == x && x !in s[..i]
    decreases |s|
  {
    if |s| == 0 then -1
    else if s[0] == x then 0
    else
      var j := IndexOf(s[1..], x);
      if j == -1 then -1
      else
        assert s[..j + 1] == [s[0]] + s[1..][..j];
        j + 1
  }

  /** The index where `splice(start, ...)` begins on an array of length len:
      a negative start counts back from the end, and both ends are clamped. */
  function SpliceStart(len: nat, start: int): (k: nat)
    ensures k <= len
    ensures 0 <= start <= len ==> k == start
    ensures -(len as int) <= start < 0 ==> k == len + start
  {
    if start < 0 then (if len + start < 0 then 0 else len + start)
    else if start > len then len
    else start
  }

  /** The contents of an array holding s after `splice(start, 1)`. */
  function Splice1<T>(s: seq<T>, start: int): (r: seq<T>)
    ensures 0 <= start < |s| ==> r == s[..start] + s[start + 1..]
    ensures start == -1 && |s| > 0 ==> r == s[..|s| - 1]
    ensures start >= |s| ==> r == s
    ensures |r| == if |s| > 0 && start < |s| then |s| - 1 else |s|
    ensures multiset(r) <= multiset(s)
    ensures forall x :: x in r ==> x in s
  {
    var k := SpliceStart(|s|, start);
    if k < |s| then
      assert s == s[..k] + [s[k]] + s[k + 1..];
      s[..k] + s[k + 1..]
    else s
  }

  /** No element of s occurs twice. */
  predicate Distinct<T(==)>(s: seq<T>)
  {
    forall i, j :: 0 <= i < j < |s| ==> s[i] != s[j]
  }

  /** splice(start, 1) keeps an array free of repetitions. */
  lemma SpliceKeepsDistinct<T>(s: seq<T>, start: int)
    requires Distinct(s)
    ensures Distinct(Splice1(s, start))
  {
    var k := SpliceStart(|s|, start);
    if k < |s| {
      var r := Splice1(s, start);
      assert r == s[..k] + s[k + 1..];
      forall i | 0 <= i < |r|
        ensures r[i] == s[if i < k then i else i + 1]
      {
        if i < k {
          assert r[i] == s[..k][i];
        } else {
          assert r[i] == s[k + 1..][i - k];
        }
      }
      forall i, j | 0 <= i < j < |r|
        ensures r[i] != r[j]
      {
        var i', j' := if i < k then i else i + 1, if j < k then j else j + 1;
        assert r[i] == s[i'] && r[j] == s[j'] && i' < j';
      }
    }
  }

  /** `s.splice(s.indexOf(x), 1)`: one occurrence of x leaves the array and
      the rest keep their order; when x is absent the last element goes. */
  lemma SpliceIndexOf<T>(s: seq<T>, x: T)
    ensures x in s ==> Splice1(s, IndexOf(s, x)) == s[..IndexOf(s, x)] + s[IndexOf(s, x) + 1..]
    ensures x in s ==> multiset(Splice1(s, IndexOf(s, x))) == multiset(s) - multiset{x}
    ensures x !in s && |s| > 0 ==> Splice1(s, IndexOf(s, x)) == s[..|s| - 1]
  {
    var i := IndexOf(s, x);
    if x in s {
      SpliceAtRemoves(s, i);
    }
  }

  /** Splicing at a valid index takes out exactly the element there. */
  lemma SpliceAtRemoves<T>(s: seq<T>, i: nat)
    requires i < |s|
    ensures multiset(Splice1(s, i)) == multiset(s) - multiset{s[i]}
  {
    assert s == s[..i] + [s[i]] + s[i + 1..];
    assert multiset(s) == multiset(s[..i]) + multiset{s[i]} + multiset(s[i + 1..]);
  }

  /** p lists each index below n exactly once (as a sequence of length n
      with no repeats and no entry out of range). */
  predicate IsPermutation(p: seq<nat>, n: nat)
  {
    && |p| == n
    && (forall k :: 0 <= k < |p| ==> p[k] < n)
    && (forall i, j :: 0 <= i < j < |p| ==> p[i] != p[j])
  }

  /** The order an array is left in when nothing moves. */
  function Identity(n: nat): (p: seq<nat>)
    ensures IsPermutation(p, n)
  {
    seq(n, i => i)
  }

  /** The array a rearranged so that position k holds a[p[k]]. */
  function Permute<T>(a: seq<T>, p: seq<nat>): (r: seq<T>)
    requires IsPermutation(p, |a|)
    ensures |r| == |a|
    ensures forall k :: 0 <= k < |r| ==> r[k] == a[p[k]]
  {
    seq(|a|, k requires 0 <= k < |a| => a[p[k]])
  }

  /** Removes the value m from a list of indices and closes the gap above it. */
  function Lower(p: seq<nat>, m: nat): (q: seq<nat>)
    requires forall k :: 0 <= k < |p| ==> p[k] != m
    ensures |q| == |p|
    ensures forall k :: 0 <= k < |q| ==> q[k] == if p[k] > m then p[k] - 1 else p[k]
  {
    seq(|p|, k requires 0 <= k < |p| => if p[k] > m then p[k] - 1 else p[k])
  }

  /** Dropping the last entry m of a permutation of n and renumbering the
      rest to close the gap at m leaves a permutation of n - 1. */
  lemma LowerIsPermutation(p: seq<nat>, n: nat)
    requires n > 0 && IsPermutation(p, n)
    ensures IsPermutation(Lower(p[..n - 1], p[n - 1]), n - 1)
  {
    var m := p[n - 1];
    var init := p[..n - 1];
    forall k | 0 <= k < n - 1
      ensures init[k] != m
    {
      assert init[k] == p[k];
    }
    var q := Lower(init, m);
    forall k | 0 <= k < |q|
      ensures q[k] < n - 1
    {
      assert init[k] == p[k] && p[k] != p[n - 1];
    }
    forall i, j | 0 <= i < j < |q|
      ensures q[i] != q[j]
    {
      assert init[i] == p[i] && init[j] == p[j];
      assert p[i] != p[j];
    }
  }

  /** Permuting by p is permuting the array without its element at m = p[n - 1]
      by the renumbered rest of p, then appending that element. */
  lemma PermuteDropLast<T>(a: seq<T>, p: seq<nat>)
    requires |a| > 0 && IsPermutation(p, |a|)
    ensures IsPermutation(Lower(p[..|a| - 1], p[|a| - 1]), |a| - 1)
    ensures Permute(a, p) == Permute(a[..p[|a| - 1]] + a[p[|a| - 1] + 1..], Lower(p[..|a| - 1], p[|a| - 1])) + [a[p[|a| - 1]]]
  {
    var n := |a|;
    var m := p[n - 1];
    LowerIsPermutation(p, n);
    var a' := a[..m] + a[m + 1..];
    var q := Lower(p[..n - 1], m);
    var r, r' := Permute(a, p), Permute(a', q);
    forall k | 0 <= k < n - 1
      ensures r[k] == r'[k]
    {
      assert p[..n - 1][k] == p[k] && p[k] != m;
    }
    assert r == r' + [a[m]];
  }

  /** Rearranging by a permutation keeps every element, as often as it was there. */
  lemma {:induction false} PermutePreservesMultiset<T>(a: seq<T>, p: seq<nat>)
    requires IsPermutation(p, |a|)
    ensures multiset(Permute(a, p)) == multiset(a)
    decreases |a|
  {
    if |a| == 0 {
      assert Permute(a, p) == [];
    } else {
      var n := |a|;
      var m := p[n - 1];
      var a' := a[..m] + a[m + 1..];
      PermuteDropLast(a, p);
      var q := Lower(p[..n - 1], m);
      PermutePreservesMultiset(a', q);
      assert a == a[..m] + [a[m]] + a[m + 1..];
      calc {
        multiset(Permute(a, p));
        multiset(Permute(a', q)) + multiset{a[m]};
        multiset(a') + multiset{a[m]};
        multiset(a[..m]) + multiset(a[m + 1..]) + multiset{a[m]};
        multiset(a);
      }
    }
  }

  /** How many times `for (let i = 0; i < n; i++)` runs its body: the number
      of naturals i with i < n, which for a fractional n rounds up. */
  function LoopCount(n: real): (c: nat)
    ensures c == 0 <==> n <= 0.0
    ensures c > 0 ==> (c - 1) as real < n <= c as real
  {
    if n <= 0.0 then 0
    else
      var f := (-n).Floor;
      assert f as real <= -n < f as real + 1.0;
      -f
  }
}
