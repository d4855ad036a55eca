/** pixel-coordinate.go: a position on a photo in pixels, origin at the top
    left, with a depth component Z between the clipping planes. */
module PixelCoordinates {
  import opened Util

  datatype PixelCoordinate = PixelCoordinate(x: real, y: real, z: real)
  {
    function X(): (r: real)
      ensures r == x
    {
      x
    }

    function Y(): (r: real)
      ensures r == y
    {
      y
    }

    function Z(): (r: real)
      ensures r == z
    {
      z
    }

    function Add(p2: PixelCoordinate): (r: PixelCoordinate)
      ensures r.x == x + p2.x && r.y == y + p2.y && r.z == z + p2.z
    {
      PixelCoordinate(x + p2.x, y + p2.y, z + p2.z)
    }

    function Sub(p2: PixelCoordinate): (r: PixelCoordinate)
      ensures r.x == x - p2.x && r.y == y - p2.y && r.z == z - p2.z
    {
      PixelCoordinate(x - p2.x, y - p2.y, z - p2.z)
    }

    /** Every component multiplied by f. */
    function Scaled(f: real): (r: PixelCoordinate)
      ensures r.x == x * f && r.y == y * f && r.z == z * f
    {
      PixelCoordinate(x * f, y * f, z * f)
    }

    /** The squared Euclidean length. */
    function LengthSqr(): (r: real)
      ensures r >= 0.0
    {
      Sqr(x) + Sqr(y) + Sqr(z)
    }

    /** The coordinate counts as unset when all components are zero. */
    predicate IsZero()
    {
      x == 0.0 && y == 0.0 && z == 0.0
    }
  }

  const Zero := PixelCoordinate(0.0, 0.0, 0.0)

  lemma AddCommutative(p: PixelCoordinate, q: PixelCoordinate)
    ensures p.Add(q) == q.Add(p)
  {
  }

  lemma SubUndoesAdd(p: PixelCoordinate, q: PixelCoordinate)
    ensures p.Add(q).Sub(q) == p
  {
  }

  lemma SubSelf(p: PixelCoordinate)
    ensures p.Sub(p) == Zero && Zero.IsZero()
  {
  }

  /** Scaling by one changes nothing. */
  lemma ScaledByOne(p: PixelCoordinate)
    ensures p.Scaled(1.0) == p
  {
  }

  /** Only the zero coordinate has length zero. */
  lemma LengthSqrZero(p: PixelCoordinate)
    ensures p.LengthSqr() == 0.0 <==> p.IsZero()
  {
    SqrZero(p.x);
    SqrZero(p.y);
    SqrZero(p.z);
  }
}
