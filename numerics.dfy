/** The floating-point library functions and the camera projection that the
    residuals depend on. They are not computed here: a `Numerics` value
    bundles them, and `Lawful` states the laws the model relies on. */
module Numerics {
  import opened Wrappers
  import opened Floats
  import opened Util
  import opened Coordinates
  import opened PixelCoordinates
  import Angles

  /** Everything the projection of one photo depends on: the camera's angle
      of view of the long image side, and the photo's size, position and
      orientation. */
  datatype Pose = Pose(longSideAov: real, imageSize: PixelCoordinate, position: Coordinate, orientation: Rotation)

  /** math.Sqrt, math.Acos, and the model-view-projection matrix of a pose
      with its inverse (`invertible` is false when the inverse is the zero
      matrix). */
  datatype Numerics = Numerics(
    sqrt: real -> real,
    acos: real -> real,
    project: (Pose, Coordinate) -> PixelCoordinate,
    invertible: Pose -> bool,
    unproject: (Pose, PixelCoordinate) -> Coordinate)

  ghost predicate Lawful(n: Numerics)
  {
    IsSqrt(n.sqrt) &&
    (forall c: real {:trigger n.acos(c)} :: -1.0 <= c <= 1.0 ==> 0.0 <= n.acos(c) <= Angles.Pi) &&
    n.acos(1.0) == 0.0
  }

  /** math.Acos on a float64: NaN outside [-1, 1] and for NaN or infinite
      arguments. */
  function Acos(n: Numerics, c: Float): (r: Float)
    requires Lawful(n)
    ensures r.NaN? || (r.Fin? && 0.0 <= r.v <= Angles.Pi)
    ensures r.NaN? <==> !(c.Fin? && -1.0 <= c.v <= 1.0)
  {
    if c.Fin? && -1.0 <= c.v <= 1.0 then Fin(n.acos(c.v)) else NaN
  }

  /** mgl64.Vec3.Len. */
  function Len(n: Numerics, v: Vector3): (r: real)
    requires Lawful(n)
    ensures r >= 0.0 && Sqr(r) == Sqr(v.a) + Sqr(v.b) + Sqr(v.c)
  {
    n.sqrt(Sqr(v.a) + Sqr(v.b) + Sqr(v.c))
  }

  /** CameraPhoto.Project: every world coordinate mapped into the image. */
  function ProjectAll(n: Numerics, pose: Pose, world: seq<Coordinate>): (r: seq<PixelCoordinate>)
    ensures |r| == |world|
    ensures forall i :: 0 <= i < |world| ==> r[i] == n.project(pose, world[i])
  {
    seq(|world|, i requires 0 <= i < |world| => n.project(pose, world[i]))
  }

  /** CameraPhoto.Unproject: fails as a whole when the matrix has no
      inverse, otherwise maps every image coordinate back into the world. */
  function UnprojectAll(n: Numerics, pose: Pose, img: seq<PixelCoordinate>): (r: Option<seq<Coordinate>>)
    ensures r.None? <==> !n.invertible(pose)
    ensures r.Some? ==> |r.value| == |img|
    ensures r.Some? ==> forall i :: 0 <= i < |img| ==> r.value[i] == n.unproject(pose, img[i])
  {
    if !n.invertible(pose) then None
    else Some(seq(|img|, i requires 0 <= i < |img| => n.unproject(pose, img[i])))
  }
}
