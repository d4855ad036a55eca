/** coordinate.go: a point in the world, or a vector between two points,
    as a triple of distances in metres. */
module Coordinates {
  import opened Util

  /** Index of a component of a three-component value. */
  datatype Axis = X | Y | Z

  datatype Coordinate = Coordinate(x: real, y: real, z: real)
  {
    function At(axis: Axis): (r: real)
      ensures axis == X ==> r == x
      ensures axis == Y ==> r == y
      ensures axis == Z ==> r == z
    {
      match axis
      case X => x
      case Y => y
      case Z => z
    }

    /** The same coordinate with one component replaced. */
    function With(axis: Axis, v: real): (r: Coordinate)
      ensures r.At(axis) == v
      ensures forall other: Axis :: other != axis ==> r.At(other) == At(other)
    {
      match axis
      case X => Coordinate(v, y, z)
      case Y => Coordinate(x, v, z)
      case Z => Coordinate(x, y, v)
    }

    function Add(c2: Coordinate): (r: Coordinate)
      ensures forall axis: Axis :: r.At(axis) == At(axis) + c2.At(axis)
    {
      Coordinate(x + c2.x, y + c2.y, z + c2.z)
    }

    function Sub(c2: Coordinate): (r: Coordinate)
      ensures forall axis: Axis :: r.At(axis) == At(axis) - c2.At(axis)
    {
      Coordinate(x - c2.x, y - c2.y, z - c2.z)
    }

    /** The coordinate as a three-component vector. */
    function Vec3(): (v: Vector3)
      ensures v.a == x && v.b == y && v.c == z
    {
      Vector3(x, y, z)
    }

    /** The coordinate as a homogeneous four-component vector. */
    function Vec4(w: real): (v: Vector4)
      ensures v.a == x && v.b == y && v.c == z && v.d == w
    {
      Vector4(x, y, z, w)
    }

    /** The sum of the squared differences of the components; Distance is
        its square root. */
    function SqrDistance(c2: Coordinate): (r: real)
      ensures r >= 0.0
    {
      var d := Sub(c2);
      Sqr(d.x) + Sqr(d.y) + Sqr(d.z)
    }

    /** Distance between this coordinate and c2, given a square root. */
    function Distance(sqrt: real -> real, c2: Coordinate): (r: real)
      requires IsSqrt(sqrt)
      ensures r >= 0.0 && Sqr(r) == SqrDistance(c2)
    {
      sqrt(SqrDistance(c2))
    }
  }

  /** The laws of math.Sqrt on non-negative arguments. */
  ghost predicate IsSqrt(sqrt: real -> real)
  {
    forall s: real {:trigger sqrt(s)} :: s >= 0.0 ==> sqrt(s) >= 0.0 && Sqr(sqrt(s)) == s
  }

  /** mgl64.Vec3. */
  datatype Vector3 = Vector3(a: real, b: real, c: real)
  {
    function Dot(o: Vector3): (r: real)
    {
      a * o.a + b * o.b + c * o.c
    }
  }

  /** mgl64.Vec4. */
  datatype Vector4 = Vector4(a: real, b: real, c: real, d: real)

  /** rotation.go: Euler angles about X, Y and Z. */
  datatype Rotation = Rotation(x: real, y: real, z: real)
  {
    function At(axis: Axis): (r: real)
      ensures axis == X ==> r == x
      ensures axis == Y ==> r == y
      ensures axis == Z ==> r == z
    {
      match axis
      case X => x
      case Y => y
      case Z => z
    }

    function With(axis: Axis, v: real): (r: Rotation)
      ensures r.At(axis) == v
      ensures forall other: Axis :: other != axis ==> r.At(other) == At(other)
    {
      match axis
      case X => Rotation(v, y, z)
      case Y => Rotation(x, v, z)
      case Z => Rotation(x, y, v)
    }
  }

  /** Subtracting what was added gives back the original coordinate. */
  lemma SubUndoesAdd(c: Coordinate, d: Coordinate)
    ensures c.Add(d).Sub(d) == c
  {
  }

  /** A coordinate is at distance zero from itself. */
  lemma DistanceToSelf(sqrt: real -> real, c: Coordinate)
    requires IsSqrt(sqrt)
    ensures c.Distance(sqrt, c) == 0.0
  {
    var r := c.Distance(sqrt, c);
    assert c.Sub(c) == Coordinate(0.0, 0.0, 0.0);
    assert Sqr(r) == 0.0;
    SqrZero(r);
  }

  /** The distance is zero exactly between equal coordinates. */
  lemma DistanceZero(sqrt: real -> real, c: Coordinate, c2: Coordinate)
    requires IsSqrt(sqrt)
    ensures c.Distance(sqrt, c2) == 0.0 <==> c == c2
  {
    var r := c.Distance(sqrt, c2);
    var d := c.Sub(c2);
    if r == 0.0 {
      assert Sqr(0.0) == 0.0;
      assert Sqr(d.x) == 0.0 && Sqr(d.y) == 0.0 && Sqr(d.z) == 0.0;
      SqrZero(d.x);
      SqrZero(d.y);
      SqrZero(d.z);
    }
    if c == c2 {
      DistanceToSelf(sqrt, c);
    }
  }

  /** The distance does not depend on the order of the arguments. */
  lemma DistanceSymmetric(sqrt: real -> real, c: Coordinate, c2: Coordinate)
    requires IsSqrt(sqrt)
    ensures c.Distance(sqrt, c2) == c2.Distance(sqrt, c)
  {
    var d, e := c.Sub(c2), c2.Sub(c);
    assert e.x == -d.x && e.y == -d.y && e.z == -d.z;
    SqrNeg(d.x);
    SqrNeg(d.y);
    SqrNeg(d.z);
    assert c.SqrDistance(c2) == c2.SqrDistance(c);
  }

  /** A distance is the non-negative number whose square is the squared
      distance. */
  lemma DistanceFromSquare(sqrt: real -> real, c: Coordinate, c2: Coordinate, d: real)
    requires IsSqrt(sqrt) && d >= 0.0 && c.SqrDistance(c2) == Sqr(d)
    ensures c.Distance(sqrt, c2) == d
  {
    SqrInjective(c.Distance(sqrt, c2), d);
  }

  /** The 3-4-5 triangle: (0,0,0) and (3,4,0) are 5 apart. */
  lemma DistanceThreeFourFive(sqrt: real -> real)
    requires IsSqrt(sqrt)
    ensures Coordinate(0.0, 0.0, 0.0).Distance(sqrt, Coordinate(3.0, 4.0, 0.0)) == 5.0
  {
    SqrDistanceThreeFourFive();
    DistanceFromSquare(sqrt, Coordinate(0.0, 0.0, 0.0), Coordinate(3.0, 4.0, 0.0), 5.0);
  }

  /** The squared distance of the 3-4-5 triangle, on literals alone. */
  lemma SqrDistanceThreeFourFive()
    ensures Coordinate(0.0, 0.0, 0.0).SqrDistance(Coordinate(3.0, 4.0, 0.0)) == Sqr(5.0)
  {
    var d := Coordinate(0.0, 0.0, 0.0).Sub(Coordinate(3.0, 4.0, 0.0));
    assert d == Coordinate(-3.0, -4.0, 0.0);
    assert Sqr(d.x) == 9.0 && Sqr(d.y) == 16.0 && Sqr(d.z) == 0.0;
    assert Sqr(5.0) == 25.0;
  }
}
