/** util.go: the squaring helper used by every residual, with the facts
    about squares that the residual proofs rely on. Each nonlinear step is
    a separate calculation step with its own small arithmetic lemma. */
module Util {
  /** The square of x, never negative. */
  function Sqr(x: real): (r: real)
    ensures r >= 0.0
  {
    x * x
  }

  /** Only zero squares to zero. */
  lemma SqrZero(x: real)
    ensures Sqr(x) == 0.0 <==> x == 0.0
  {
    if x > 0.0 {
      SqrPositive(x);
    } else if x < 0.0 {
      SqrPositive(-x);
      SqrNeg(x);
    }
  }

  /** Squaring ignores the sign. */
  lemma SqrNeg(x: real)
    ensures Sqr(-x) == Sqr(x)
  {
  }

  /** A positive number has a positive square. */
  lemma SqrPositive(y: real)
    requires y > 0.0
    ensures Sqr(y) > 0.0
  {
    calc {
      Sqr(y);
    ==
      y * y;
    > { MulPositive(y, y); }
      0.0;
    }
  }

  /** Dividing a square by its non-zero root gives the root back. */
  lemma SqrOver(x: real)
    requires x != 0.0
    ensures Sqr(x) / x == x
  {
    calc {
      Sqr(x) / x;
    ==
      (x * x) / x;
    ==
      x * (x / x);
    ==
      x;
    }
  }

  /** On non-negative arguments squaring is strictly monotone. */
  lemma SqrStrictlyMonotone(x: real, y: real)
    requires 0.0 <= x < y
    ensures Sqr(x) < Sqr(y)
  {
    calc {
      Sqr(x);
    ==
      x * x;
    <= { MulLeft(x, x, y); }
      x * y;
    < { MulRightStrict(y, x, y); }
      y * y;
    ==
      Sqr(y);
    }
  }

  /** On non-negative arguments equal squares mean equal values. */
  lemma SqrInjective(x: real, y: real)
    requires x >= 0.0 && y >= 0.0 && Sqr(x) == Sqr(y)
    ensures x == y
  {
    if x < y {
      SqrStrictlyMonotone(x, y);
    } else if y < x {
      SqrStrictlyMonotone(y, x);
    }
  }

  /** A non-negative root of a^2 + b^2 is at least |a|, and is exactly |a|
      when b is zero. */
  lemma RootOfSumOfSquares(a: real, b: real, s: real)
    requires s >= 0.0 && Sqr(s) == Sqr(a) + Sqr(b)
    ensures s >= a && s >= -a
    ensures b == 0.0 ==> (s == a || s == -a)
  {
    if s < a {
      SqrStrictlyMonotone(s, a);
    }
    if s < -a {
      SqrStrictlyMonotone(s, -a);
      SqrNeg(a);
    }
    if b == 0.0 {
      if a >= 0.0 {
        SqrInjective(s, a);
      } else {
        SqrNeg(a);
        SqrInjective(s, -a);
      }
    }
  }

  lemma MulPositive(a: real, b: real)
    requires a > 0.0 && b > 0.0
    ensures a * b > 0.0
  {
  }

  lemma MulLeft(a: real, b: real, c: real)
    requires a >= 0.0 && b <= c
    ensures a * b <= a * c
  {
  }

  lemma MulRightStrict(a: real, b: real, c: real)
    requires a > 0.0 && b < c
    ensures b * a < c * a
  {
  }

  /** f applied to every element, in order. */
  function MapSeq<A, B>(f: A -> B, s: seq<A>): (r: seq<B>)
    ensures |r| == |s| && forall i :: 0 <= i < |s| ==> r[i] == f(s[i])
  {
    seq(|s|, i requires 0 <= i < |s| => f(s[i]))
  }

  /** Mapping a concatenation maps both parts. */
  lemma MapSeqConcat<A, B>(f: A -> B, x: seq<A>, y: seq<A>)
    ensures multiset(MapSeq(f, x + y)) == multiset(MapSeq(f, x)) + multiset(MapSeq(f, y))
  {
    assert MapSeq(f, x + y) == MapSeq(f, x) + MapSeq(f, y);
  }

  /** Applying f to a permutation gives a permutation of the images. */
  lemma {:induction false} MapSeqPermutation<A, B>(f: A -> B, a: seq<A>, b: seq<A>)
    requires multiset(a) == multiset(b)
    ensures multiset(MapSeq(f, a)) == multiset(MapSeq(f, b))
    decreases |a|
  {
    if a == [] {
      assert |b| == |multiset(b)| == 0;
    } else {
      var last := |a| - 1;
      var x := a[last];
      assert x in multiset(b);
      var j :| 0 <= j < |b| && b[j] == x;
      var before, after := b[..j], b[j + 1..];
      assert b == before + ([x] + after);
      assert a == a[..last] + [x];
      assert multiset(before + after) == multiset(b) - multiset{x};
      MapSeqPermutation(f, a[..last], before + after);
      MapSeqConcat(f, a[..last], [x]);
      MapSeqConcat(f, before, after);
      MapSeqConcat(f, before, [x] + after);
      MapSeqConcat(f, [x], after);
    }
  }
}
