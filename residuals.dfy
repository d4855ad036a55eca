/** The squared residuals the optimizer minimises (the `ResidualSqr`
    methods of line.go, rangefinder-measurement.go, tripod-measurement.go
    and camera-photo.go). Every residual is scaled by one over the accuracy
    of the device that measured it before squaring, and kept in float64
    semantics, so a zero accuracy or a degenerate angle shows up as an
    infinity or NaN wherever the source lets it through. */
module Residuals {
  import opened Wrappers
  import opened Floats
  import opened Util
  import opened Coordinates
  import opened PixelCoordinates
  import opened Numerics
  import opened Survey
  import Angles

  /** The bound every angular term is clamped to, and the value that
      replaces a NaN. */
  const Million: real := 1000000.0

  // ---------------------------------------------------------------- Shared pieces

  /** sqr(diff / accuracy) in float64: exact when the accuracy is not zero,
      +Inf for a non-zero difference over a zero accuracy, and NaN for 0/0. */
  function WeightedSqr(diff: real, accuracy: real): (r: Float)
    ensures accuracy != 0.0 ==> r == Fin(Sqr(diff / accuracy))
    ensures accuracy == 0.0 && diff != 0.0 ==> r == PosInf
    ensures accuracy == 0.0 && diff == 0.0 ==> r == NaN
  {
    var q := Div(Fin(diff), Fin(accuracy));
    Mul(q, q)
  }

  /** A weighted square is zero exactly when the difference is zero and the
      accuracy is not. */
  lemma WeightedSqrZero(diff: real, accuracy: real)
    ensures WeightedSqr(diff, accuracy) == Fin(0.0) <==> diff == 0.0 && accuracy != 0.0
  {
    if accuracy != 0.0 {
      SqrZero(diff / accuracy);
      if diff / accuracy == 0.0 {
        assert diff == (diff / accuracy) * accuracy;
      }
    }
  }

  /** The angle between two vectors: acos(v1·v2 / |v1| / |v2|), with each
      division in float64, so a zero-length vector gives NaN. */
  function VectorAngle(n: Numerics, v1: Vector3, v2: Vector3): (r: Float)
    requires Lawful(n)
    ensures r.NaN? || (r.Fin? && 0.0 <= r.v <= Angles.Pi)
  {
    Acos(n, Div(Div(Fin(v1.Dot(v2)), Fin(Len(n, v1))), Fin(Len(n, v2))))
  }

  /** A vector of non-zero length makes the angle zero with itself. */
  lemma VectorAngleSelf(n: Numerics, v: Vector3)
    requires Lawful(n) && Len(n, v) != 0.0
    ensures VectorAngle(n, v, v) == Fin(0.0)
  {
    var l := Len(n, v);
    assert v.Dot(v) == Sqr(l);
    SqrOver(l);
    assert l / l == 1.0;
  }

  /** Against a zero vector the angle is NaN. */
  lemma VectorAngleZero(n: Numerics, v1: Vector3)
    requires Lawful(n)
    ensures VectorAngle(n, v1, Vector3(0.0, 0.0, 0.0)) == NaN
  {
    var z := Vector3(0.0, 0.0, 0.0);
    var l := Len(n, z);
    assert Sqr(l) == 0.0;
    SqrZero(l);
    assert v1.Dot(z) == 0.0;
  }

  // ---------------------------------------------------------------- Line

  /** The direction term of a line: the angle between the wanted direction
      and the line, over the accuracy, squared; NaN becomes 1e6 and the
      result is clamped to 1e6. */
  function DirectionTerm(n: Numerics, direction: Vector3, line: Vector3, accuracy: real): (r: Float)
    requires Lawful(n)
    ensures r.Fin? && 0.0 <= r.v <= Million
  {
    var q := Div(VectorAngle(n, direction, line), Fin(accuracy));
    var sr := Mul(q, q);
    SquareNotNegative(q);
    Min(if sr.NaN? then Fin(Million) else sr, Fin(Million))
  }

  /** When the angle is defined and the accuracy is not zero, the term is
      the squared weighted angle, clamped to 1e6. */
  lemma DirectionTermExact(n: Numerics, direction: Vector3, line: Vector3, accuracy: real)
    requires Lawful(n) && accuracy != 0.0 && VectorAngle(n, direction, line).Fin?
    ensures var s := Sqr(VectorAngle(n, direction, line).v / accuracy);
            DirectionTerm(n, direction, line, accuracy) == Fin(if s <= Million then s else Million)
  {
  }

  /** A zero accuracy saturates the term, whatever the angle. */
  lemma DirectionTermZeroAccuracy(n: Numerics, direction: Vector3, line: Vector3)
    requires Lawful(n)
    ensures DirectionTerm(n, direction, line, 0.0) == Fin(Million)
  {
    var a := VectorAngle(n, direction, line);
    if a.Fin? && a.v != 0.0 {
      assert Div(a, Fin(0.0)) == PosInf;
    }
  }

  /** What a line's residual depends on: the positions of its two points
      (None when either is missing from the site) and its wanted
      direction. */
  datatype LineData = LineData(ends: Option<(Coordinate, Coordinate)>, directionEnabled: bool,
                               directionVector: Coordinate, directionAccuracy: real)

  function LineInputs(l: Line): (d: LineData)
    requires l.site != null
    reads l, l.site, l.site.points.Values`position
  {
    var points := l.site.points;
    LineData(if l.p1 in points && l.p2 in points then Some((points[l.p1].position, points[l.p2].position)) else None,
             l.directionEnabled, l.directionVector, l.directionAccuracy)
  }

  /** The residual of a line with the given inputs. */
  function LineResidualOf(n: Numerics, d: LineData): (r: Float)
    requires Lawful(n)
    ensures r.Fin? && 0.0 <= r.v <= Million
    ensures d.ends.None? || !d.directionEnabled ==> r == Fin(0.0)
  {
    if d.ends.None? then Fin(0.0)
    else
      var ssr := Fin(0.0);
      if d.directionEnabled then
        var term := DirectionTerm(n, d.directionVector.Vec3(), d.ends.value.1.Sub(d.ends.value.0).Vec3(), d.directionAccuracy);
        AddZero(term);
        Add(ssr, term)
      else ssr
  }

  /** line.go: ResidualSqr. */
  function LineResidualSqr(n: Numerics, l: Line): (r: Float)
    requires Lawful(n) && l.site != null
    reads l, l.site, l.site.points.Values`position
    ensures r.Fin? && 0.0 <= r.v <= Million
    ensures l.p1 !in l.site.points || l.p2 !in l.site.points ==> r == Fin(0.0)
    ensures !l.directionEnabled ==> r == Fin(0.0)
  {
    LineResidualOf(n, LineInputs(l))
  }

  /** A line lying along its wanted direction has a zero direction term, if
      the accuracy is not zero. */
  lemma DirectionTermAligned(n: Numerics, v: Vector3, accuracy: real)
    requires Lawful(n) && Len(n, v) != 0.0 && accuracy != 0.0
    ensures DirectionTerm(n, v, v, accuracy) == Fin(0.0)
  {
    VectorAngleSelf(n, v);
    DirectionTermExact(n, v, v, accuracy);
    assert 0.0 / accuracy == 0.0;
  }

  /** A line whose points lie exactly along its wanted direction has no
      residual, if the accuracy is not zero. */
  lemma LineResidualAligned(n: Numerics, l: Line)
    requires Lawful(n) && l.site != null && l.p1 in l.site.points && l.p2 in l.site.points
    requires l.directionAccuracy != 0.0
    requires l.directionVector == l.site.points[l.p2].position.Sub(l.site.points[l.p1].position)
    requires Len(n, l.directionVector.Vec3()) != 0.0
    ensures LineResidualSqr(n, l) == Fin(0.0)
  {
    if l.directionEnabled {
      DirectionTermAligned(n, l.directionVector.Vec3(), l.directionAccuracy);
      AddZero(Fin(0.0));
    }
  }

  /** Zero-length line: the angle to the wanted direction is NaN, which the
      direction term saturates to 1e6. */
  lemma DirectionTermDegenerate(n: Numerics, direction: Vector3, accuracy: real)
    requires Lawful(n)
    ensures DirectionTerm(n, direction, Vector3(0.0, 0.0, 0.0), accuracy) == Fin(Million)
  {
    VectorAngleZero(n, direction);
  }

  /** A line whose two points coincide has the saturated residual 1e6 when
      its direction is enabled. */
  lemma LineResidualCoincident(n: Numerics, l: Line)
    requires Lawful(n) && l.site != null && l.p1 in l.site.points && l.p2 in l.site.points
    requires l.directionEnabled
    requires l.site.points[l.p1].position == l.site.points[l.p2].position
    ensures LineResidualSqr(n, l) == Fin(Million)
  {
    var p := l.site.points[l.p1].position;
    assert LineInputs(l).ends == Some((p, p));
    LineResidualOfCoincident(n, LineInputs(l));
  }

  lemma LineResidualOfCoincident(n: Numerics, d: LineData)
    requires Lawful(n) && d.ends.Some? && d.ends.value.0 == d.ends.value.1 && d.directionEnabled
    ensures LineResidualOf(n, d) == Fin(Million)
  {
    assert d.ends.value.1.Sub(d.ends.value.0).Vec3() == Vector3(0.0, 0.0, 0.0);
    DirectionTermDegenerate(n, d.directionVector.Vec3(), d.directionAccuracy);
    var term := DirectionTerm(n, d.directionVector.Vec3(), d.ends.value.1.Sub(d.ends.value.0).Vec3(), d.directionAccuracy);
    assert term == Fin(Million);
    assert LineResidualOf(n, d) == Add(Fin(0.0), term);
    AddZero(term);
  }

  // ---------------------------------------------------------------- Rangefinder measurement

  /** What a rangefinder measurement's residual depends on. */
  datatype RangefinderData = RangefinderData(ends: Option<(Coordinate, Coordinate)>, measuredDistance: real, accuracy: real)

  function RangefinderInputs(d: RangefinderMeasurement): (r: RangefinderData)
    requires d.rangefinder != null && d.rangefinder.site != null
    reads d, d.rangefinder, d.rangefinder.site, d.rangefinder.site.points.Values`position
  {
    var points := d.rangefinder.site.points;
    RangefinderData(if d.p1 in points && d.p2 in points then Some((points[d.p1].position, points[d.p2].position)) else None,
                    d.measuredDistance, d.rangefinder.accuracy)
  }

  /** The residual of a rangefinder measurement with the given inputs. */
  function RangefinderResidualOf(n: Numerics, d: RangefinderData): (r: Float)
    requires Lawful(n)
    ensures d.ends.None? ==> r == Fin(0.0)
    ensures r.NaN? || r.PosInf? || (r.Fin? && r.v >= 0.0)
  {
    if d.ends.None? then Fin(0.0)
    else
      var distance := d.ends.value.0.Distance(n.sqrt, d.ends.value.1);
      WeightedSqr(distance - d.measuredDistance, d.accuracy)
  }

  /** rangefinder-measurement.go: ResidualSqr. */
  function RangefinderResidualSqr(n: Numerics, d: RangefinderMeasurement): (r: Float)
    requires Lawful(n) && d.rangefinder != null && d.rangefinder.site != null
    reads d, d.rangefinder, d.rangefinder.site, d.rangefinder.site.points.Values`position
    ensures d.p1 !in d.rangefinder.site.points || d.p2 !in d.rangefinder.site.points ==> r == Fin(0.0)
    ensures r.NaN? || r.PosInf? || (r.Fin? && r.v >= 0.0)
  {
    RangefinderResidualOf(n, RangefinderInputs(d))
  }

  /** With both points present and a non-zero accuracy, the residual is
      zero exactly when the points are as far apart as measured. */
  lemma RangefinderResidualZero(n: Numerics, d: RangefinderMeasurement)
    requires Lawful(n) && d.rangefinder != null && d.rangefinder.site != null
    requires d.p1 in d.rangefinder.site.points && d.p2 in d.rangefinder.site.points
    requires d.rangefinder.accuracy != 0.0
    ensures var points := d.rangefinder.site.points;
            RangefinderResidualSqr(n, d) == Fin(0.0) <==>
            points[d.p1].position.Distance(n.sqrt, points[d.p2].position) == d.measuredDistance
  {
    var points := d.rangefinder.site.points;
    WeightedSqrZero(points[d.p1].position.Distance(n.sqrt, points[d.p2].position) - d.measuredDistance, d.rangefinder.accuracy);
  }

  /** Points at (0,0,0) and (3,4,0) measured 5 apart leave no residual. */
  lemma RangefinderResidualExample(n: Numerics, d: RangefinderMeasurement)
    requires Lawful(n) && d.rangefinder != null && d.rangefinder.site != null
    requires d.p1 in d.rangefinder.site.points && d.p2 in d.rangefinder.site.points
    requires d.rangefinder.site.points[d.p1].position == Coordinate(0.0, 0.0, 0.0)
    requires d.rangefinder.site.points[d.p2].position == Coordinate(3.0, 4.0, 0.0)
    requires d.measuredDistance == 5.0 && d.rangefinder.accuracy != 0.0
    ensures RangefinderResidualSqr(n, d) == Fin(0.0)
  {
    DistanceThreeFourFive(n.sqrt);
    RangefinderResidualZero(n, d);
  }

  // ---------------------------------------------------------------- Tripod measurement

  /** The distance from the tripod's pivot to the measured point: the
      measured distance plus the offset along the measuring direction, and
      the side offset across it. */
  function PivotDistance(n: Numerics, measured: real, offset: real, offsetSide: real): (r: real)
    requires Lawful(n)
    ensures Sqr(r) == Sqr(measured + offset) + Sqr(offsetSide)
    ensures r >= measured + offset && r >= -(measured + offset)
    ensures offsetSide == 0.0 ==> r == measured + offset || r == -(measured + offset)
  {
    var direct := measured + offset;
    var s := n.sqrt(Sqr(direct) + Sqr(offsetSide));
    RootOfSumOfSquares(direct, offsetSide, s);
    s
  }

  /** What a tripod measurement's residual depends on. */
  datatype TripodData = TripodData(point: Option<Coordinate>, measuredDistance: real, offset: real, offsetSide: real,
                                   position: Coordinate, accuracy: real)

  function TripodInputs(tm: TripodMeasurement): (r: TripodData)
    requires tm.tripod != null && tm.tripod.site != null
    reads tm, tm.tripod, tm.tripod.site, tm.tripod.site.points.Values`position
  {
    var tripod := tm.tripod;
    TripodData(if tm.pointKey in tripod.site.points then Some(tripod.site.points[tm.pointKey].position) else None,
               tm.measuredDistance, tripod.offset, tripod.offsetSide, tripod.position, tripod.accuracy)
  }

  /** The residual of a tripod measurement with the given inputs. */
  function TripodResidualOf(n: Numerics, d: TripodData): (r: Float)
    requires Lawful(n)
    ensures d.point.None? ==> r == Fin(0.0)
    ensures r.NaN? || r.PosInf? || (r.Fin? && r.v >= 0.0)
  {
    if d.point.Some? then
      var pivotDistance := PivotDistance(n, d.measuredDistance, d.offset, d.offsetSide);
      WeightedSqr(pivotDistance - d.point.value.Distance(n.sqrt, d.position), d.accuracy)
    else Fin(0.0)
  }

  /** tripod-measurement.go: ResidualSqr. */
  function TripodResidualSqr(n: Numerics, tm: TripodMeasurement): (r: Float)
    requires Lawful(n) && tm.tripod != null && tm.tripod.site != null
    reads tm, tm.tripod, tm.tripod.site, tm.tripod.site.points.Values`position
    ensures tm.pointKey !in tm.tripod.site.points ==> r == Fin(0.0)
    ensures r.NaN? || r.PosInf? || (r.Fin? && r.v >= 0.0)
  {
    TripodResidualOf(n, TripodInputs(tm))
  }

  /** With the point present and a non-zero accuracy, the residual is zero
      exactly when the pivot distance equals the point's distance from the
      tripod's position. */
  lemma TripodResidualZero(n: Numerics, tm: TripodMeasurement)
    requires Lawful(n) && tm.tripod != null && tm.tripod.site != null
    requires tm.pointKey in tm.tripod.site.points && tm.tripod.accuracy != 0.0
    ensures var tripod := tm.tripod;
            TripodResidualSqr(n, tm) == Fin(0.0) <==>
            PivotDistance(n, tm.measuredDistance, tripod.offset, tripod.offsetSide) ==
            tripod.site.points[tm.pointKey].position.Distance(n.sqrt, tripod.position)
  {
    var tripod := tm.tripod;
    var pivotDistance := PivotDistance(n, tm.measuredDistance, tripod.offset, tripod.offsetSide);
    WeightedSqrZero(pivotDistance - tripod.site.points[tm.pointKey].position.Distance(n.sqrt, tripod.position), tripod.accuracy);
  }

  // ---------------------------------------------------------------- Camera photo

  /** What the projection of a photo depends on. */
  function PoseOf(cp: CameraPhoto): (r: Pose)
    requires cp.camera != null
    reads cp, cp.camera
    ensures r.longSideAov == cp.camera.longSideAov && r.imageSize == cp.imageSize
    ensures r.position == cp.position && r.orientation == cp.orientation
  {
    Pose(cp.camera.longSideAov, cp.imageSize, cp.position, cp.orientation)
  }

  /** A mapping the photo residual uses: the world position of its point
      and the image position the point is mapped to. */
  datatype Sample = Sample(world: Coordinate, image: PixelCoordinate)

  /** The keys of the mappings the photo residual uses: not suggested, and
      naming a point of the site. */
  ghost function UsedKeys(cp: CameraPhoto): (r: set<string>)
    requires cp.camera != null && cp.camera.site != null
    reads cp, cp.camera, cp.camera.site, cp.mappings.Values`pointKey, cp.mappings.Values`suggested
    ensures forall k :: k in r <==> k in cp.mappings && !cp.mappings[k].suggested && cp.mappings[k].pointKey in cp.camera.site.points
  {
    set k | k in cp.mappings && !cp.mappings[k].suggested && cp.mappings[k].pointKey in cp.camera.site.points
  }

  /** The sample of a used mapping. */
  function SampleOf(cp: CameraPhoto, k: string): (s: Sample)
    requires cp.camera != null && cp.camera.site != null
    requires k in cp.mappings && cp.mappings[k].pointKey in cp.camera.site.points
    reads cp, cp.camera, cp.camera.site, cp.camera.site.points.Values`position
    reads cp.mappings.Values`pointKey, cp.mappings.Values`position
  {
    Sample(cp.camera.site.points[cp.mappings[k].pointKey].position, cp.mappings[k].position)
  }

  /** The samples of the used mappings, by mapping key. */
  ghost function UsedSamples(cp: CameraPhoto): (r: map<string, Sample>)
    requires cp.camera != null && cp.camera.site != null
    reads cp, cp.camera, cp.camera.site, cp.camera.site.points.Values`position
    reads cp.mappings.Values`pointKey, cp.mappings.Values`suggested, cp.mappings.Values`position
  {
    map k | k in UsedKeys(cp) :: SampleOf(cp, k)
  }

  /** keys lists every key of used exactly once, and samples holds their
      samples in the same order. */
  ghost predicate Lists(keys: seq<string>, samples: seq<Sample>, used: map<string, Sample>)
  {
    (forall k :: k in used ==> k in keys) &&
    (forall i, j :: 0 <= i < j < |keys| ==> keys[i] != keys[j]) &&
    |samples| == |keys| &&
    forall i :: 0 <= i < |keys| ==> keys[i] in used && samples[i] == used[keys[i]]
  }

  /** The angle between the ray out of the camera through the unprojected
      image position and the ray to the point. */
  function SampleAngle(n: Numerics, pose: Pose, s: Sample): (r: Float)
    requires Lawful(n)
    ensures r.NaN? || (r.Fin? && 0.0 <= r.v <= Angles.Pi)
  {
    var unprojected := n.unproject(pose, s.image);
    VectorAngle(n, unprojected.Sub(pose.position).Vec3(), s.world.Sub(pose.position).Vec3())
  }

  /** The term one angle adds to the photo residual: 1e6 for NaN, else the
      angle over the accuracy, squared and clamped to 1e6. The clamp does
      not catch the NaN of 0/0, so a zero angle over a zero accuracy gives
      NaN. */
  function AngleTerm(angle: Float, angAccuracy: real): (r: Float)
    requires angle.NaN? || (angle.Fin? && angle.v >= 0.0)
    ensures r.NaN? || (r.Fin? && 0.0 <= r.v <= Million)
    ensures angle.NaN? ==> r == Fin(Million)
  {
    if angle.NaN? then Fin(Million)
    else
      var q := Div(angle, Fin(angAccuracy));
      SquareNotNegative(q);
      Min(Mul(q, q), Fin(Million))
  }

  /** The term is NaN exactly for a zero angle over a zero accuracy. */
  lemma AngleTermNaN(angle: Float, angAccuracy: real)
    requires angle.NaN? || (angle.Fin? && angle.v >= 0.0)
    ensures AngleTerm(angle, angAccuracy).NaN? <==> angle == Fin(0.0) && angAccuracy == 0.0
  {
  }

  /** With a non-zero accuracy the term of a defined angle is the squared
      weighted angle, clamped to 1e6. */
  lemma AngleTermExact(angle: Float, angAccuracy: real)
    requires angle.Fin? && angle.v >= 0.0 && angAccuracy != 0.0
    ensures var s := Sqr(angle.v / angAccuracy);
            AngleTerm(angle, angAccuracy) == Fin(if s <= Million then s else Million)
  {
  }

  /** The term of one sample. */
  function SampleTerm(n: Numerics, pose: Pose, angAccuracy: real, s: Sample): (r: Float)
    requires Lawful(n)
    ensures r.NaN? || (r.Fin? && 0.0 <= r.v <= Million)
  {
    AngleTerm(SampleAngle(n, pose, s), angAccuracy)
  }

  /** The term of a sample, as a function of the sample. */
  function TermOf(n: Numerics, pose: Pose, angAccuracy: real): (f: Sample -> Float)
    requires Lawful(n)
  {
    s => SampleTerm(n, pose, angAccuracy, s)
  }

  /** The terms of the samples, in their order. */
  function Terms(n: Numerics, pose: Pose, angAccuracy: real, samples: seq<Sample>): (r: seq<Float>)
    requires Lawful(n)
    ensures |r| == |samples| && forall i :: 0 <= i < |samples| ==> r[i] == SampleTerm(n, pose, angAccuracy, samples[i])
  {
    MapSeq(TermOf(n, pose, angAccuracy), samples)
  }

  /** The residual of a photo whose used mappings are the samples: 1e6
      when the projection cannot be inverted, else the sum of the terms. */
  function PhotoResidualOf(n: Numerics, pose: Pose, angAccuracy: real, samples: seq<Sample>): (r: Float)
    requires Lawful(n)
  {
    if !n.invertible(pose) then Fin(Million) else Sum(Terms(n, pose, angAccuracy, samples))
  }

  /** The photo residual is 1e6 when the projection cannot be inverted,
      and otherwise NaN or a value in [0, 1e6 per used mapping]; with a
      non-zero accuracy it is never NaN. */
  lemma PhotoResidualBound(n: Numerics, pose: Pose, angAccuracy: real, samples: seq<Sample>)
    requires Lawful(n)
    ensures !n.invertible(pose) ==> PhotoResidualOf(n, pose, angAccuracy, samples) == Fin(Million)
    ensures var r := PhotoResidualOf(n, pose, angAccuracy, samples);
            r.NaN? || (r.Fin? && 0.0 <= r.v && (n.invertible(pose) ==> r.v <= Million * |samples| as real))
    ensures angAccuracy != 0.0 ==> PhotoResidualOf(n, pose, angAccuracy, samples).Fin?
  {
    if n.invertible(pose) {
      var ts := Terms(n, pose, angAccuracy, samples);
      TermsBound(ts);
      if angAccuracy != 0.0 {
        TermsNotNaN(n, pose, angAccuracy, samples);
      }
    }
  }

  /** A sum of terms is NaN or lies in [0, 1e6 per term], and is finite
      when no term is NaN. */
  lemma TermsBound(ts: seq<Float>)
    requires forall i :: 0 <= i < |ts| ==> ts[i].NaN? || (ts[i].Fin? && 0.0 <= ts[i].v <= Million)
    ensures var r := Sum(ts); r.NaN? || (r.Fin? && 0.0 <= r.v <= Million * |ts| as real)
    ensures (forall i :: 0 <= i < |ts| ==> !ts[i].NaN?) ==> Sum(ts).Fin?
  {
    SumBound(ts, Million);
    TimesIsProduct(Million, |ts|);
  }

  /** With a non-zero accuracy no term is NaN. */
  lemma TermsNotNaN(n: Numerics, pose: Pose, angAccuracy: real, samples: seq<Sample>)
    requires Lawful(n) && angAccuracy != 0.0
    ensures forall i :: 0 <= i < |samples| ==> !Terms(n, pose, angAccuracy, samples)[i].NaN?
  {
    forall i | 0 <= i < |samples|
      ensures !SampleTerm(n, pose, angAccuracy, samples[i]).NaN?
    {
      AngleTermNaN(SampleAngle(n, pose, samples[i]), angAccuracy);
    }
  }

  /** The residual of a photo does not depend on the order its mappings
      are visited in, which is the unspecified order of a Go map. */
  lemma PhotoResidualOrderFree(n: Numerics, pose: Pose, angAccuracy: real, a: seq<Sample>, b: seq<Sample>)
    requires Lawful(n) && multiset(a) == multiset(b)
    ensures PhotoResidualOf(n, pose, angAccuracy, a) == PhotoResidualOf(n, pose, angAccuracy, b)
  {
    MapSeqPermutation(TermOf(n, pose, angAccuracy), a, b);
    SumPermutation(Terms(n, pose, angAccuracy, a), Terms(n, pose, angAccuracy, b));
  }

  /** The images of the samples, in order. */
  function Images(samples: seq<Sample>): (r: seq<PixelCoordinate>)
    ensures |r| == |samples| && forall i :: 0 <= i < |samples| ==> r[i] == samples[i].image
  {
    seq(|samples|, i requires 0 <= i < |samples| => samples[i].image)
  }

  /** keys lists every used mapping of the photo exactly once, and
      samples holds their samples in the same order. */
  ghost predicate UsedListing(cp: CameraPhoto, keys: seq<string>, samples: seq<Sample>)
    requires cp.camera != null && cp.camera.site != null
    reads cp, cp.camera, cp.camera.site, cp.camera.site.points.Values`position
    reads cp.mappings.Values`pointKey, cp.mappings.Values`suggested, cp.mappings.Values`position
  {
    (forall k :: k in UsedKeys(cp) ==> k in keys) &&
    (forall i, j :: 0 <= i < j < |keys| ==> keys[i] != keys[j]) &&
    |samples| == |keys| &&
    forall i :: 0 <= i < |keys| ==> keys[i] in UsedKeys(cp) && samples[i] == SampleOf(cp, keys[i])
  }

  /** A listing of the used mappings is a listing of the used samples. */
  lemma UsedListingLists(cp: CameraPhoto, keys: seq<string>, samples: seq<Sample>)
    requires cp.camera != null && cp.camera.site != null
    ensures UsedListing(cp, keys, samples) <==> Lists(keys, samples, UsedSamples(cp))
  {
  }

  /** The first loop of CameraPhoto.ResidualSqr: the used mappings in map
      order, with their samples. */
  method UsedMappings(cp: CameraPhoto) returns (ms: seq<CameraPhotoMapping>, samples: seq<Sample>, ghost keys: seq<string>)
    requires cp.camera != null && cp.camera.site != null
    ensures UsedListing(cp, keys, samples) && |ms| == |keys|
    ensures forall i :: 0 <= i < |keys| ==> keys[i] in cp.mappings && ms[i] == cp.mappings[keys[i]]
  {
    var points := cp.camera.site.points;
    ghost var used := UsedKeys(cp);
    ms, samples, keys := [], [], [];
    var todo := cp.mappings.Keys;
    while todo != {}
      invariant todo <= cp.mappings.Keys
      invariant forall i :: 0 <= i < |keys| ==> keys[i] !in todo
      invariant forall k :: k in used && k !in todo ==> k in keys
      invariant forall i, j :: 0 <= i < j < |keys| ==> keys[i] != keys[j]
      invariant |ms| == |samples| == |keys|
      invariant forall i :: 0 <= i < |keys| ==> keys[i] in used && ms[i] == cp.mappings[keys[i]]
      invariant forall i :: 0 <= i < |keys| ==> samples[i] == SampleOf(cp, keys[i])
      decreases |todo|
    {
      var k :| k in todo;
      var mapping := cp.mappings[k];
      if mapping.pointKey in points && !mapping.suggested {
        ms := ms + [mapping];
        samples := samples + [Sample(points[mapping.pointKey].position, mapping.position)];
        keys := keys + [k];
      }
      todo := todo - {k};
    }
  }

  /** No two of the listed mappings are the same object. */
  predicate DistinctMappings(ms: seq<CameraPhotoMapping>)
  {
    forall i, j :: 0 <= i < j < |ms| ==> ms[i] != ms[j]
  }

  /** Distinct keys of a map without shared objects lead to distinct
      mappings. */
  lemma UsedMappingsDistinct(cp: CameraPhoto, ms: seq<CameraPhotoMapping>, keys: seq<string>)
    requires Distinct(cp.mappings) && |ms| == |keys|
    requires forall i :: 0 <= i < |keys| ==> keys[i] in cp.mappings && ms[i] == cp.mappings[keys[i]]
    requires forall i, j :: 0 <= i < j < |keys| ==> keys[i] != keys[j]
    ensures DistinctMappings(ms)
  {
  }

  /** A mapping whose key is not listed is none of the listed mappings. */
  lemma UnlistedNotUsed(cp: CameraPhoto, ms: seq<CameraPhotoMapping>, keys: seq<string>)
    requires Distinct(cp.mappings) && |ms| == |keys|
    requires forall i :: 0 <= i < |keys| ==> keys[i] in cp.mappings && ms[i] == cp.mappings[keys[i]]
    ensures forall k :: k in cp.mappings && k !in keys ==> cp.mappings[k] !in ms
  {
  }

  /** One more term added to a left-to-right sum. */
  lemma SumStep(terms: seq<Float>, i: nat)
    requires i < |terms|
    ensures Sum(terms[..i + 1]) == Add(Sum(terms[..i]), terms[i])
  {
    assert terms[..i + 1][..i] == terms[..i];
  }

  /** The term the loop body computes from the unprojected ray is the
      sample's term. */
  lemma LoopTerm(n: Numerics, pose: Pose, angAccuracy: real, s: Sample, unprojected: Coordinate)
    requires Lawful(n) && unprojected == n.unproject(pose, s.image)
    ensures var angle := VectorAngle(n, unprojected.Sub(pose.position).Vec3(), s.world.Sub(pose.position).Vec3());
            angle == SampleAngle(n, pose, s) &&
            (angle.NaN? ==> SampleTerm(n, pose, angAccuracy, s) == Fin(Million)) &&
            (!angle.NaN? ==> SampleTerm(n, pose, angAccuracy, s) ==
                               Min(Mul(Div(angle, Fin(angAccuracy)), Div(angle, Fin(angAccuracy))), Fin(Million)))
  {
  }

  /** The second loop of CameraPhoto.ResidualSqr: the sum of the terms,
      caching each term whose angle is defined in its mapping's `sr`. */
  method AccumulateTerms(n: Numerics, pose: Pose, angAccuracy: real, ms: seq<CameraPhotoMapping>, samples: seq<Sample>,
                         unprojected: seq<Coordinate>) returns (ssr: Float)
    requires Lawful(n) && |ms| == |samples| == |unprojected| && DistinctMappings(ms)
    requires forall i :: 0 <= i < |samples| ==> unprojected[i] == n.unproject(pose, samples[i].image)
    modifies ms`sr
    ensures ssr == Sum(Terms(n, pose, angAccuracy, samples))
    ensures forall i :: 0 <= i < |ms| ==>
              ms[i].sr == if SampleAngle(n, pose, samples[i]).NaN? then old(ms[i].sr) else SampleTerm(n, pose, angAccuracy, samples[i])
  {
    ghost var terms := Terms(n, pose, angAccuracy, samples);
    ssr := Fin(0.0);
    for i := 0 to |ms|
      invariant ssr == Sum(terms[..i])
      invariant forall j :: 0 <= j < |ms| ==>
                  ms[j].sr == if j < i && !SampleAngle(n, pose, samples[j]).NaN? then SampleTerm(n, pose, angAccuracy, samples[j]) else old(ms[j].sr)
    {
      SumStep(terms, i);
      LoopTerm(n, pose, angAccuracy, samples[i], unprojected[i]);
      var v1 := unprojected[i].Sub(pose.position).Vec3();
      var v2 := samples[i].world.Sub(pose.position).Vec3();
      var angle := VectorAngle(n, v1, v2);
      if angle.NaN? {
        ssr := Add(ssr, Fin(Million));
        continue;
      }
      var r := Div(angle, Fin(angAccuracy));
      var sr := Mul(r, r);
      sr := Min(sr, Fin(Million));
      ms[i].sr := sr;
      ssr := Add(ssr, sr);
    }
    assert terms[..|ms|] == terms;
  }

  /** camera-photo.go: ResidualSqr. The used mappings are visited in map
      order; keys and samples are the order used, and the result is the
      same for every order (PhotoResidualOrderFree). */
  method PhotoResidualSqr(n: Numerics, cp: CameraPhoto) returns (ssr: Float, ghost keys: seq<string>, ghost samples: seq<Sample>)
    requires Lawful(n) && cp.camera != null && cp.camera.site != null && Distinct(cp.mappings)
    modifies cp.mappings.Values`sr
    ensures UsedListing(cp, keys, samples)
    ensures ssr == PhotoResidualOf(n, PoseOf(cp), cp.camera.angAccuracy, samples)
    ensures forall k :: k in cp.mappings && k !in keys ==> cp.mappings[k].sr == old(cp.mappings[k].sr)
    ensures !n.invertible(PoseOf(cp)) ==> forall k :: k in cp.mappings ==> cp.mappings[k].sr == old(cp.mappings[k].sr)
    ensures n.invertible(PoseOf(cp)) ==> forall i :: 0 <= i < |keys| ==>
              cp.mappings[keys[i]].sr ==
                if SampleAngle(n, PoseOf(cp), samples[i]).NaN? then old(cp.mappings[keys[i]].sr)
                else SampleTerm(n, PoseOf(cp), cp.camera.angAccuracy, samples[i])
  {
    var ms, used;
    ms, used, keys := UsedMappings(cp);
    samples := used;
    UsedMappingsDistinct(cp, ms, keys);
    UnlistedNotUsed(cp, ms, keys);
    var pose := PoseOf(cp);
    var unprojected := UnprojectAll(n, pose, Images(used));
    if unprojected.None? {
      return Fin(Million), keys, samples;
    }
    ssr := AccumulateTerms(n, pose, cp.camera.angAccuracy, ms, used, unprojected.value);
  }
}
