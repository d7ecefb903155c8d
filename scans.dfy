/** Left-to-right scans over a sequence, the shape of a `forEach` loop that
    appends to output arrays: the positions whose element has a property, the
    concatenation of a per-element list, and the images of the elements that
    lack a property. Each is taken over the first `n` elements, so that a loop
    over `0..n` can keep it as its invariant. */
module Scans {

  /** The positions `i < n` with `p(xs[i]) == b`, in increasing order. */
  function Positions<T>(xs: seq<T>, p: T -> bool, b: bool, n: nat): seq<nat>
    requires n <= |xs|
  {
    if n == 0 then [] else Positions(xs, p, b, n - 1) + (if p(xs[n - 1]) == b then [n - 1] else [])
  }

  /** `Positions` lists exactly the matching positions, each once, in increasing order. */
  lemma {:induction false} PositionsSpec<T>(xs: seq<T>, p: T -> bool, b: bool, n: nat)
    requires n <= |xs|
    ensures forall k :: 0 <= k < |Positions(xs, p, b, n)| ==> Positions(xs, p, b, n)[k] < n
    ensures forall i, j :: 0 <= i < j < |Positions(xs, p, b, n)| ==>
              Positions(xs, p, b, n)[i] < Positions(xs, p, b, n)[j]
    ensures forall i :: i in Positions(xs, p, b, n) <==> 0 <= i < n && p(xs[i]) == b
  {
    if n > 0 {
      PositionsSpec(xs, p, b, n - 1);
    }
  }

  /** Every position has the property or lacks it. */
  lemma {:induction false} PositionsPartition<T>(xs: seq<T>, p: T -> bool, n: nat)
    requires n <= |xs|
    ensures |Positions(xs, p, false, n)| + |Positions(xs, p, true, n)| == n
  {
    if n > 0 {
      PositionsPartition(xs, p, n - 1);
    }
  }

  /** `f(xs[0], 0) + f(xs[1], 1) + ... + f(xs[n-1], n-1)`. */
  function Concat<T, E>(xs: seq<T>, f: (T, nat) -> seq<E>, n: nat): seq<E>
    requires n <= |xs|
  {
    if n == 0 then [] else Concat(xs, f, n - 1) + f(xs[n - 1], n - 1)
  }

  /** The concatenation is empty exactly when every part is. */
  lemma {:induction false} ConcatEmpty<T, E>(xs: seq<T>, f: (T, nat) -> seq<E>, n: nat)
    requires n <= |xs|
    ensures Concat(xs, f, n) == [] <==> forall i :: 0 <= i < n ==> f(xs[i], i) == []
  {
    if n > 0 {
      ConcatEmpty(xs, f, n - 1);
    }
  }

  /** The parts appear in order: the parts of the elements before `i`, then
      that of element `i`, open the whole concatenation. */
  lemma {:induction false} ConcatInOrder<T, E>(xs: seq<T>, f: (T, nat) -> seq<E>, i: nat, n: nat)
    requires i < n <= |xs|
    ensures Concat(xs, f, i) + f(xs[i], i) <= Concat(xs, f, n)
  {
    if i < n - 1 {
      ConcatInOrder(xs, f, i, n - 1);
    }
  }

  /** `g` of every element among the first `n` that lacks `p`, in order. */
  function Kept<T, U>(xs: seq<T>, p: T -> bool, g: T -> U, n: nat): seq<U>
    requires n <= |xs|
  {
    if n == 0 then [] else Kept(xs, p, g, n - 1) + (if p(xs[n - 1]) then [] else [g(xs[n - 1])])
  }

  /** The kept images are those of the positions lacking `p`, in order. */
  lemma {:induction false} KeptAtPositions<T, U>(xs: seq<T>, p: T -> bool, g: T -> U, n: nat)
    requires n <= |xs|
    ensures |Kept(xs, p, g, n)| == |Positions(xs, p, false, n)|
    ensures forall k :: 0 <= k < |Kept(xs, p, g, n)| ==>
              && Positions(xs, p, false, n)[k] < |xs|
              && !p(xs[Positions(xs, p, false, n)[k]])
              && Kept(xs, p, g, n)[k] == g(xs[Positions(xs, p, false, n)[k]])
  {
    if n > 0 {
      KeptAtPositions(xs, p, g, n - 1);
      PositionsSpec(xs, p, false, n - 1);
    }
  }

  /** When no element has `p`, every element is kept. */
  lemma {:induction false} KeptAll<T, U>(xs: seq<T>, p: T -> bool, g: T -> U, n: nat)
    requires n <= |xs|
    requires forall i :: 0 <= i < n ==> !p(xs[i])
    ensures |Kept(xs, p, g, n)| == n
    ensures forall i :: 0 <= i < n ==> Kept(xs, p, g, n)[i] == g(xs[i])
  {
    if n > 0 {
      KeptAll(xs, p, g, n - 1);
    }
  }

}
