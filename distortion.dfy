/** camera.go: the radial lens distortion model of a camera. A distorted
    (camera) coordinate d and its ideal projection u are related by
    u = c + (d - c) * (1 + K1 r² + K2 r⁴), where c is the distortion image
    centre and r the distance of d from c, scaled by 1/10000. Undistort
    evaluates that formula; Distort inverts it approximately by a fixed
    number of fixed-point rounds on the radius.

    Both first pick an image centre when the camera has none: a centre
    with all components zero counts as unset, and is replaced by the
    middle of one of the camera's photos, whichever the map iteration
    visits first. */
module Distortion {
  import opened Wrappers
  import opened Util
  import opened PixelCoordinates
  import opened Numerics
  import opened Survey

  /** Radii enter the model scaled by this hard-coded factor. */
  const RadiusScale: real := 0.0001

  /** Distort's number of fixed-point rounds. */
  const DistortRounds: nat := 5

  /** Both coefficients zero: the camera has no distortion. */
  const NoDistortion := Pair(0.0, 0.0)

  /** camera.go: radialUndistort. The radial scaling factor for a distorted
      radius whose square is radiusSqr. */
  function RadialUndistort(ks: Pair<real>, radiusSqr: real): (r: real)
    ensures ks == NoDistortion ==> r == 1.0
    ensures radiusSqr == 0.0 ==> r == 1.0
  {
    1.0 + ks.first * radiusSqr + ks.second * radiusSqr * radiusSqr
  }

  /** The ideal projection of the camera coordinate p for the centre and
      coefficients given. Without distortion, and at the centre itself,
      nothing moves. */
  function Undistorted(center: PixelCoordinate, ks: Pair<real>, p: PixelCoordinate): (r: PixelCoordinate)
    ensures ks == NoDistortion ==> r == p
    ensures p == center ==> r == center
  {
    var centered := p.Sub(center);
    center.Add(centered.Scaled(RadialUndistort(ks, centered.Scaled(RadiusScale).LengthSqr())))
  }

  /** The distorted radius and the radial scaling after `rounds` rounds of
      Distort's iteration from the undistorted radius u, or None once a
      scaling of zero leaves the division without a finite result. After
      at least one round the scaling is never zero; without distortion
      every round keeps the radius and scales by one. */
  function Iterated(ks: Pair<real>, u: real, rounds: nat): (r: Option<(real, real)>)
    ensures rounds == 0 ==> r == Some((u, 0.0))
    ensures rounds > 0 && r.Some? ==> r.value.1 != 0.0
    ensures rounds > 0 && ks == NoDistortion ==> r == Some((u, 1.0))
    ensures rounds > 0 && u == 0.0 ==> r == Some((0.0, 1.0))
    decreases rounds
  {
    if rounds == 0 then Some((u, 0.0))
    else
      match Iterated(ks, u, rounds - 1)
      case None => None
      case Some(last) =>
        var scaling := RadialUndistort(ks, Sqr(last.0));
        if scaling == 0.0 then None else Some((u / scaling, scaling))
  }

  /** Once a round fails, every later round fails too. */
  lemma {:induction false} IteratedFailureStays(ks: Pair<real>, u: real, i: nat, j: nat)
    requires i <= j && Iterated(ks, u, i).None?
    ensures Iterated(ks, u, j).None?
    decreases j - i
  {
    if i < j {
      IteratedFailureStays(ks, u, i, j - 1);
    }
  }

  /** The camera coordinate whose ideal projection is p, as Distort
      approximates it from the undistorted radius u of p, or None when the
      iteration has no finite result. */
  function DistortedFrom(center: PixelCoordinate, ks: Pair<real>, p: PixelCoordinate, u: real): (r: Option<PixelCoordinate>)
    ensures ks == NoDistortion ==> r == Some(p)
    ensures u == 0.0 ==> r == Some(center.Add(p.Sub(center)))
  {
    var last := Iterated(ks, u, DistortRounds);
    if last.None? then None else Some(center.Add(p.Sub(center).Scaled(1.0 / last.value.1)))
  }

  /** The scaled distance of p from the centre. */
  function UndistortedRadius(n: Numerics, center: PixelCoordinate, p: PixelCoordinate): real
  {
    n.sqrt(p.Sub(center).Scaled(RadiusScale).LengthSqr())
  }

  /** The camera coordinate whose ideal projection is p, as Distort
      approximates it. */
  function Distorted(n: Numerics, center: PixelCoordinate, ks: Pair<real>, p: PixelCoordinate): (r: Option<PixelCoordinate>)
    ensures ks == NoDistortion ==> r == Some(p)
  {
    DistortedFrom(center, ks, p, UndistortedRadius(n, center, p))
  }

  /** Distort keeps the image centre where it is, whatever the
      coefficients. */
  lemma DistortedCenter(n: Numerics, center: PixelCoordinate, ks: Pair<real>)
    requires Lawful(n)
    ensures Distorted(n, center, ks, center) == Some(center)
  {
    SqrtZero(n);
    CenterRadius(n, center);
    DistortedFromCenter(center, ks);
  }

  /** The centre lies at radius zero. */
  lemma CenterRadius(n: Numerics, center: PixelCoordinate)
    requires n.sqrt(0.0) == 0.0
    ensures UndistortedRadius(n, center, center) == 0.0
  {
    assert center.Sub(center).Scaled(RadiusScale) == Zero;
    ZeroLength();
  }

  lemma DistortedFromCenter(center: PixelCoordinate, ks: Pair<real>)
    ensures DistortedFrom(center, ks, center, 0.0) == Some(center)
  {
  }

  lemma ZeroLength()
    ensures Zero.LengthSqr() == 0.0
  {
    SqrZero(0.0);
  }

  /** math.Sqrt(0) is 0. */
  lemma SqrtZero(n: Numerics)
    requires Lawful(n)
    ensures n.sqrt(0.0) == 0.0
  {
    var s := n.sqrt(0.0);
    assert s >= 0.0 && Sqr(s) == 0.0;
    SqrZero(s);
  }

  /** Without distortion, Distort undoes Undistort and Undistort undoes
      Distort. */
  lemma RoundTripWithoutDistortion(n: Numerics, center: PixelCoordinate, p: PixelCoordinate)
    ensures Distorted(n, center, NoDistortion, Undistorted(center, NoDistortion, p)) == Some(p)
    ensures Distorted(n, center, NoDistortion, p).Some? &&
            Undistorted(center, NoDistortion, Distorted(n, center, NoDistortion, p).value) == p
  {
  }

  /** The centre a camera ends up with: an unset centre is replaced by the
      middle of one of the photos, when there is one; otherwise it stays. */
  ghost predicate CenterChosen(before: PixelCoordinate, photos: map<string, CameraPhoto>, after: PixelCoordinate)
    reads photos.Values`imageSize
  {
    if before.IsZero() && photos != map[] then
      exists k :: k in photos && after == photos[k].imageSize.Scaled(0.5)
    else
      after == before
  }

  /** camera.go:213-218 and 240-245. */
  method ChooseCenter(c: Camera)
    modifies c`distortionImageCenter
    ensures CenterChosen(old(c.distortionImageCenter), c.photos, c.distortionImageCenter)
  {
    if c.distortionImageCenter.IsZero() && c.photos != map[] {
      var k :| k in c.photos;
      c.distortionImageCenter := c.photos[k].imageSize.Scaled(0.5);
    }
  }

  /** camera.go: Undistort. */
  method Undistort(c: Camera, cameraProjection: PixelCoordinate) returns (idealProjection: PixelCoordinate)
    modifies c`distortionImageCenter
    ensures CenterChosen(old(c.distortionImageCenter), c.photos, c.distortionImageCenter)
    ensures idealProjection == Undistorted(c.distortionImageCenter, c.distortionKs, cameraProjection)
  {
    ChooseCenter(c);
    var centered := cameraProjection.Sub(c.distortionImageCenter);
    var radiusSqr := centered.Scaled(RadiusScale).LengthSqr();
    var radialScaling := RadialUndistort(c.distortionKs, radiusSqr);
    idealProjection := c.distortionImageCenter.Add(centered.Scaled(radialScaling));
  }

  /** camera.go: Distort. A scaling of zero, where Go would go on with an
      infinite or undefined radius, ends the iteration with None. */
  method Distort(n: Numerics, c: Camera, idealProjection: PixelCoordinate) returns (cameraProjection: Option<PixelCoordinate>)
    modifies c`distortionImageCenter
    ensures CenterChosen(old(c.distortionImageCenter), c.photos, c.distortionImageCenter)
    ensures cameraProjection == Distorted(n, c.distortionImageCenter, c.distortionKs, idealProjection)
  {
    ChooseCenter(c);
    var centered := idealProjection.Sub(c.distortionImageCenter);
    var undistortedRadius := UndistortedRadius(n, c.distortionImageCenter, idealProjection);
    var distortedRadius := undistortedRadius;
    var radialScaling := 0.0;
    for i := 0 to DistortRounds
      invariant Iterated(c.distortionKs, undistortedRadius, i) == Some((distortedRadius, radialScaling))
    {
      radialScaling := RadialUndistort(c.distortionKs, Sqr(distortedRadius));
      if radialScaling == 0.0 {
        IteratedFailureStays(c.distortionKs, undistortedRadius, i + 1, DistortRounds);
        return None;
      }
      distortedRadius := undistortedRadius / radialScaling;
    }
    cameraProjection := Some(c.distortionImageCenter.Add(centered.Scaled(1.0 / radialScaling)));
  }
}
