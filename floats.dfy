/** The IEEE 754 special values that Go's float64 arithmetic can produce in
    the residual computations: NaN and the two infinities. Finite values are
    exact reals; rounding and the sign of zero are not modelled (a zero
    divisor counts as +0). */
module Floats {
  datatype Float = Fin(v: real) | PosInf | NegInf | NaN

  predicate IsNaN(a: Float) {
    a.NaN?
  }

  /** Strictly above zero, +Inf included. */
  predicate Positive(a: Float) {
    a.PosInf? || (a.Fin? && a.v > 0.0)
  }

  /** The infinity of the given sign. */
  function Inf(positive: bool): (r: Float)
    ensures r.PosInf? || r.NegInf?
  {
    if positive then PosInf else NegInf
  }

  /** Addition; adding opposite infinities gives NaN. */
  function Add(a: Float, b: Float): (r: Float)
    ensures a.Fin? && b.Fin? ==> r == Fin(a.v + b.v)
    ensures a.NaN? || b.NaN? ==> r.NaN?
  {
    match (a, b)
    case (NaN, _) => NaN
    case (_, NaN) => NaN
    case (PosInf, NegInf) => NaN
    case (NegInf, PosInf) => NaN
    case (PosInf, _) => PosInf
    case (_, PosInf) => PosInf
    case (NegInf, _) => NegInf
    case (_, NegInf) => NegInf
    case (Fin(x), Fin(y)) => Fin(x + y)
  }

  /** Multiplication; an infinity times zero gives NaN. */
  function Mul(a: Float, b: Float): (r: Float)
    ensures a.Fin? && b.Fin? ==> r == Fin(a.v * b.v)
    ensures a.NaN? || b.NaN? ==> r.NaN?
  {
    if a.NaN? || b.NaN? then NaN
    else if a.Fin? && b.Fin? then Fin(a.v * b.v)
    else if a == Fin(0.0) || b == Fin(0.0) then NaN
    else Inf(Positive(a) == Positive(b))
  }

  /** Division; 0/0 and Inf/Inf give NaN, a non-zero finite value divided
      by zero gives an infinity, a finite value divided by an infinity 0. */
  function Div(a: Float, b: Float): (r: Float)
    ensures a.Fin? && b.Fin? && b.v != 0.0 ==> r == Fin(a.v / b.v)
    ensures a.NaN? || b.NaN? ==> r.NaN?
  {
    if a.NaN? || b.NaN? then NaN
    else if a.Fin? && b.Fin? then
      if b.v != 0.0 then Fin(a.v / b.v)
      else if a.v == 0.0 then NaN
      else Inf(a.v > 0.0)
    else if a.Fin? then Fin(0.0)
    else if b.Fin? then Inf(Positive(a) == (b.v >= 0.0))
    else NaN
  }

  /** Go's math.Min: -Inf wins over everything, then NaN wins. */
  function Min(a: Float, b: Float): (r: Float)
    ensures r.NegInf? <==> a.NegInf? || b.NegInf?
    ensures r.NaN? <==> !r.NegInf? && (a.NaN? || b.NaN?)
    ensures a.Fin? && b.Fin? ==> r == Fin(if a.v <= b.v then a.v else b.v)
  {
    if a.NegInf? || b.NegInf? then NegInf
    else if a.NaN? || b.NaN? then NaN
    else if a.PosInf? then b
    else if b.PosInf? then a
    else if a.v <= b.v then a else b
  }

  /** The square of a Float is never negative and never -Inf. */
  lemma SquareNotNegative(a: Float)
    ensures var s := Mul(a, a); s.NaN? || s.PosInf? || (s.Fin? && s.v >= 0.0)
  {
    if a.Fin? {
      assert a.v * a.v >= 0.0;
    }
  }

  /** Min with a finite bound: unless the other value is NaN or -Inf, the
      result is finite and at most the bound. */
  lemma MinWithBound(a: Float, bound: real)
    requires !a.NaN? && !a.NegInf?
    ensures Min(a, Fin(bound)).Fin? && Min(a, Fin(bound)).v <= bound
    ensures a.Fin? && a.v <= bound ==> Min(a, Fin(bound)) == a
  {
  }

  /** The order in which terms are added does not matter: the basis of
      the order-independent sums used for the photo residual. */
  lemma AddSwap(s: Float, a: Float, b: Float)
    ensures Add(Add(s, a), b) == Add(Add(s, b), a)
  {
  }

  lemma AddZero(a: Float)
    ensures Add(Fin(0.0), a) == a && Add(a, Fin(0.0)) == a
  {
  }

  /** The sum of the values from left to right, starting at 0 (a loop of
      `ssr += term`). */
  function Sum(ts: seq<Float>): (r: Float)
  {
    if ts == [] then Fin(0.0) else Add(Sum(ts[..|ts| - 1]), ts[|ts| - 1])
  }

  /** bound added up count times. */
  function Times(bound: real, count: nat): (r: real)
  {
    if count == 0 then 0.0 else Times(bound, count - 1) + bound
  }

  /** Adding up is multiplying. */
  lemma {:induction false} TimesIsProduct(bound: real, count: nat)
    ensures Times(bound, count) == bound * count as real
  {
    if count > 0 {
      TimesIsProduct(bound, count - 1);
      assert bound * (count - 1) as real + bound == bound * count as real;
    }
  }

  /** Summing values that are NaN or finite and in [0, bound] gives NaN or
      a finite value in [0, bound per value]. */
  lemma {:induction false} SumBound(ts: seq<Float>, bound: real)
    requires forall i :: 0 <= i < |ts| ==> ts[i].NaN? || (ts[i].Fin? && 0.0 <= ts[i].v <= bound)
    ensures var r := Sum(ts); r.NaN? || (r.Fin? && 0.0 <= r.v <= Times(bound, |ts|))
    ensures (forall i :: 0 <= i < |ts| ==> !ts[i].NaN?) ==> Sum(ts).Fin?
    decreases |ts|
  {
    if ts != [] {
      SumBound(ts[..|ts| - 1], bound);
    }
  }

  /** Taking one value out of the middle and adding it last gives the same
      sum. */
  lemma {:induction false} SumRemove(ts: seq<Float>, j: nat)
    requires j < |ts|
    ensures Sum(ts) == Add(Sum(ts[..j] + ts[j + 1..]), ts[j])
    decreases |ts|
  {
    var last := |ts| - 1;
    if j == last {
      assert ts[..j] + ts[j + 1..] == ts[..last];
    } else {
      var front := ts[..last];
      SumRemove(front, j);
      var rest := front[..j] + front[j + 1..];
      assert ts[..j] + ts[j + 1..] == rest + [ts[last]];
      assert (rest + [ts[last]])[..|rest|] == rest;
      AddSwap(Sum(rest), ts[j], ts[last]);
    }
  }

  /** The sum does not depend on the order of the values. */
  lemma {:induction false} SumPermutation(a: seq<Float>, b: seq<Float>)
    requires multiset(a) == multiset(b)
    ensures Sum(a) == Sum(b)
    decreases |a|
  {
    if a == [] {
      assert |b| == |multiset(b)| == 0;
    } else {
      var last := |a| - 1;
      var x := a[last];
      assert x in multiset(b);
      var j :| 0 <= j < |b| && b[j] == x;
      var rest := b[..j] + b[j + 1..];
      assert b == b[..j] + [x] + b[j + 1..];
      assert a == a[..last] + [x];
      assert multiset(rest) == multiset(b) - multiset{x};
      assert multiset(a[..last]) == multiset(a) - multiset{x};
      SumRemove(b, j);
      SumPermutation(a[..last], rest);
    }
  }
}
