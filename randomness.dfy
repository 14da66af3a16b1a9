/** `Math.random()` as an explicit input.  Every call the engine makes is read
    from a stream: the k-th call of a frame returns `draws(k)`, and each
    operation that draws says which positions it consumed by returning the
    next unread one.  Properties are proved for every stream. */
module Randomness {

  /** An endless stream of draws. */
  type Stream = nat -> real

  /** `Math.random()` returns values in [0, 1). */
  ghost predicate IsUnit(draws: Stream)
  {
    forall k: nat :: 0.0 <= draws(k) < 1.0
  }

  /** `Math.floor(u * n)` for a draw `u`: an index into a collection of `n` elements. */
  function FloorIndex(u: real, n: nat): (i: nat)
    requires 0.0 <= u < 1.0 && 0 < n
    ensures i < n
    ensures i as real <= u * n as real < i as real + 1.0
  {
    ScaledDrawBelow(u, n);
    (u * n as real).Floor
  }

  lemma ScaledDrawBelow(u: real, n: nat)
    requires 0.0 <= u < 1.0 && 0 < n
    ensures 0.0 <= u * n as real < n as real
  {
    var m := n as real;
    assert m - u * m == (1.0 - u) * m;
    assert (1.0 - u) * m > 0.0;
  }
}
