/** distance.go: a length in meters, also used for a position given as its
    distance from the origin. */
module Distances {
  type Distance = real

  /** The value mapped into optimizer space: the distance itself. */
  function TweakableValue(d: Distance): (r: real)
    ensures r == d
  {
    d
  }

  /** The stored distance after applying a value from optimizer space. */
  function SetTweakableValue(d: Distance, v: real): (r: Distance)
  {
    v
  }

  /** Reading back after a write yields the written value. */
  lemma SetThenGet(d: Distance, v: real)
    ensures TweakableValue(SetTweakableValue(d, v)) == v
  {
  }

  /** Writing the same value twice is the same as writing it once. */
  lemma SetIdempotent(d: Distance, v: real)
    ensures SetTweakableValue(SetTweakableValue(d, v), v) == SetTweakableValue(d, v)
  {
  }

  /** The stored value does not depend on the previous one. */
  lemma SetIgnoresPrevious(d1: Distance, d2: Distance, v: real)
    ensures SetTweakableValue(d1, v) == SetTweakableValue(d2, v)
  {
  }
}
