/** Parameter flattening (the `GetTweakablesAndResiduals` methods of
    site.go, point.go, line.go, camera.go, camera-photo.go, rangefinder.go,
    rangefinder-measurement.go, tripod.go and tripod-measurement.go).

    Every entity contributes the fields the optimizer may change (the
    tweakables) and the entities whose error it minimises (the residuals).
    A tweakable is the owner object together with the field, where the
    source takes a pointer to that field. The order of each group of
    entities is their newest-first order, which leaves equal creation
    times in any order; the methods return the orders they used as ghost
    results, and the specification functions take them as arguments. */
module Flattening {
  import opened Coordinates
  import opened Sorting
  import opened Survey

  datatype Tweakable =
    | PointCoord(point: Point, axis: Axis)
    | CameraAov(camera: Camera)
    | CameraCenter(camera: Camera, axis: Axis)
    | CameraK(camera: Camera, index: KIndex)
    | PhotoPosition(photo: CameraPhoto, axis: Axis)
    | PhotoOrientation(photo: CameraPhoto, axis: Axis)
    | TripodOffset(tripod: Tripod)
    | TripodOffsetSide(tripod: Tripod)
    | TripodPosition(tripod: Tripod, axis: Axis)
  {
    predicate OfPhoto()
    {
      PhotoPosition? || PhotoOrientation?
    }
  }

  datatype Residual =
    | LineResidual(line: Line)
    | RangefinderResidual(rangefinderMeasurement: RangefinderMeasurement)
    | TripodResidual(tripodMeasurement: TripodMeasurement)
    | PhotoResidual(photo: CameraPhoto)

  /** The tweakable is not locked by its owner: the angle of view, the
      image centre, a distortion coefficient or a tripod offset whose lock
      flag is clear. Coordinates have no lock. */
  ghost predicate Unlocked(t: Tweakable)
    reads (if t.CameraAov? || t.CameraCenter? || t.CameraK? then {t.camera} else {})`longSideAovLocked
    reads (if t.CameraAov? || t.CameraCenter? || t.CameraK? then {t.camera} else {})`distortionImageCenterLocked
    reads (if t.CameraAov? || t.CameraCenter? || t.CameraK? then {t.camera} else {})`distortionKsLocked
    reads (if t.TripodOffset? || t.TripodOffsetSide? then {t.tripod} else {})`offsetLock
    reads (if t.TripodOffset? || t.TripodOffsetSide? then {t.tripod} else {})`offsetSideLock
  {
    match t
    case CameraAov(c) => !c.longSideAovLocked
    case CameraCenter(c, axis) => !c.distortionImageCenterLocked && axis != Z
    case CameraK(c, i) => !c.distortionKsLocked.At(i)
    case TripodOffset(tr) => !tr.offsetLock
    case TripodOffsetSide(tr) => !tr.offsetSideLock
    case _ => true
  }

  // ---------------------------------------------------------------- Contributions of one entity

  /** The three components of a coordinate, X, Y, Z. */
  function CoordinateTweakables(mk: Axis -> Tweakable): (r: seq<Tweakable>)
  {
    [mk(X), mk(Y), mk(Z)]
  }

  /** point.go: the point's position, and no residual. */
  function PointTweakables(p: Point): (r: seq<Tweakable>)
  {
    CoordinateTweakables(axis => PointCoord(p, axis))
  }

  /** line.go: no tweakable, the line itself as the one residual. */
  function LineResiduals(l: Line): (r: seq<Residual>)
  {
    [LineResidual(l)]
  }

  /** camera-photo.go: position then orientation, and the photo itself as
      the one residual. */
  function PhotoTweakables(ph: CameraPhoto): (r: seq<Tweakable>)
  {
    CoordinateTweakables(axis => PhotoPosition(ph, axis)) + CoordinateTweakables(axis => PhotoOrientation(ph, axis))
  }

  /** The distortion coefficients with index below n whose lock is clear,
      in index order. */
  function KsTweakables(c: Camera, n: nat): (r: seq<Tweakable>)
    requires n <= CameraDistortionKs
    reads c`distortionKsLocked
  {
    if n == 0 then []
    else
      var i: KIndex := n - 1;
      KsTweakables(c, n - 1) + (if !c.distortionKsLocked.At(i) then [CameraK(c, i)] else [])
  }

  /** The coefficients below n are exactly those whose lock is clear, in
      increasing index order. */
  lemma {:induction false} KsExactlyUnlocked(c: Camera, n: nat)
    requires n <= CameraDistortionKs
    ensures var r := KsTweakables(c, n);
      (forall i :: 0 <= i < |r| ==>
         r[i].CameraK? && r[i].camera == c && r[i].index < n && !c.distortionKsLocked.At(r[i].index)) &&
      (forall i: KIndex :: i < n && !c.distortionKsLocked.At(i) ==> CameraK(c, i) in r) &&
      (forall i, j :: 0 <= i < j < |r| ==> r[i].index < r[j].index)
  {
    if n > 0 {
      KsExactlyUnlocked(c, n - 1);
    }
  }

  /** camera.go: the camera's own tweakables, before those of its photos:
      the angle of view, the X and Y of the image centre, and the
      distortion coefficients, each unless locked. */
  function CameraOwnTweakables(c: Camera): (r: seq<Tweakable>)
    reads c`longSideAovLocked, c`distortionImageCenterLocked, c`distortionKsLocked
  {
    LeadTweakables(c) + KsTweakables(c, CameraDistortionKs)
  }

  /** The angle of view and the X and Y of the image centre, each unless
      locked. */
  function LeadTweakables(c: Camera): (r: seq<Tweakable>)
    reads c`longSideAovLocked, c`distortionImageCenterLocked
    ensures forall i :: 0 <= i < |r| ==> (r[i].CameraAov? || r[i].CameraCenter?) && r[i].camera == c
  {
    (if !c.longSideAovLocked then [CameraAov(c)] else []) +
    (if !c.distortionImageCenterLocked then [CameraCenter(c, X), CameraCenter(c, Y)] else [])
  }

  /** The tweakables of the photos under keys, in that order. */
  function PhotosTweakables(m: map<string, CameraPhoto>, keys: seq<string>): (r: seq<Tweakable>)
    requires forall i :: 0 <= i < |keys| ==> keys[i] in m
    ensures forall i :: 0 <= i < |r| ==> r[i].OfPhoto()
    ensures |r| == 6 * |keys|
  {
    if keys == [] then []
    else PhotosTweakables(m, keys[..|keys| - 1]) + PhotoTweakables(m[keys[|keys| - 1]])
  }

  /** One residual per photo under keys, in that order. */
  function PhotosResiduals(m: map<string, CameraPhoto>, keys: seq<string>): (r: seq<Residual>)
    requires forall i :: 0 <= i < |keys| ==> keys[i] in m
    ensures |r| == |keys| && forall i :: 0 <= i < |keys| ==> r[i] == PhotoResidual(m[keys[i]])
  {
    if keys == [] then []
    else PhotosResiduals(m, keys[..|keys| - 1]) + [PhotoResidual(m[keys[|keys| - 1]])]
  }

  /** camera.go: the camera's own tweakables, then those of its photos in
      the given order; the camera has no residual of its own. */
  function CameraTweakables(c: Camera, keys: seq<string>): (r: seq<Tweakable>)
    requires forall i :: 0 <= i < |keys| ==> keys[i] in c.photos
    reads c`longSideAovLocked, c`distortionImageCenterLocked, c`distortionKsLocked, c`photos
  {
    CameraOwnTweakables(c) + PhotosTweakables(c.photos, keys)
  }

  /** The residuals of the measurements under keys, in that order. */
  function RangefinderResiduals(m: map<string, RangefinderMeasurement>, keys: seq<string>): (r: seq<Residual>)
    requires forall i :: 0 <= i < |keys| ==> keys[i] in m
    ensures |r| == |keys| && forall i :: 0 <= i < |keys| ==> r[i] == RangefinderResidual(m[keys[i]])
  {
    if keys == [] then []
    else RangefinderResiduals(m, keys[..|keys| - 1]) + [RangefinderResidual(m[keys[|keys| - 1]])]
  }

  /** The residuals of the measurements under keys, in that order. */
  function TripodResiduals(m: map<string, TripodMeasurement>, keys: seq<string>): (r: seq<Residual>)
    requires forall i :: 0 <= i < |keys| ==> keys[i] in m
    ensures |r| == |keys| && forall i :: 0 <= i < |keys| ==> r[i] == TripodResidual(m[keys[i]])
  {
    if keys == [] then []
    else TripodResiduals(m, keys[..|keys| - 1]) + [TripodResidual(m[keys[|keys| - 1]])]
  }

  /** tripod.go: the offset and the side offset unless locked, then the
      position; the measurements contribute residuals only. */
  function TripodTweakables(tr: Tripod): (r: seq<Tweakable>)
    reads tr`offsetLock, tr`offsetSideLock
  {
    (if !tr.offsetLock then [TripodOffset(tr)] else []) +
    (if !tr.offsetSideLock then [TripodOffsetSide(tr)] else []) +
    CoordinateTweakables(axis => TripodPosition(tr, axis))
  }

  // ---------------------------------------------------------------- Properties of one entity

  /** The angle of view is a tweakable exactly when it is not locked. */
  lemma CameraAovLock(c: Camera, keys: seq<string>)
    requires forall i :: 0 <= i < |keys| ==> keys[i] in c.photos
    ensures CameraAov(c) in CameraTweakables(c, keys) <==> !c.longSideAovLocked
  {
    var lead, ks, photos := LeadTweakables(c), KsTweakables(c, CameraDistortionKs), PhotosTweakables(c.photos, keys);
    KsExactlyUnlocked(c, CameraDistortionKs);
    NotAmongPhotos(photos);
    assert CameraTweakables(c, keys) == lead + ks + photos;
  }

  /** The image centre contributes exactly X and Y when it is not locked,
      and never Z. */
  lemma CameraCenterLock(c: Camera, keys: seq<string>)
    requires forall i :: 0 <= i < |keys| ==> keys[i] in c.photos
    ensures forall axis :: CameraCenter(c, axis) in CameraTweakables(c, keys) <==>
              !c.distortionImageCenterLocked && axis != Z
  {
    var lead, ks, photos := LeadTweakables(c), KsTweakables(c, CameraDistortionKs), PhotosTweakables(c.photos, keys);
    KsExactlyUnlocked(c, CameraDistortionKs);
    NotAmongPhotos(photos);
    assert CameraTweakables(c, keys) == lead + ks + photos;
  }

  /** Distortion coefficient i is a tweakable exactly when its lock is
      clear. */
  lemma CameraKLocks(c: Camera, keys: seq<string>)
    requires forall i :: 0 <= i < |keys| ==> keys[i] in c.photos
    ensures forall i: KIndex :: CameraK(c, i) in CameraTweakables(c, keys) <==> !c.distortionKsLocked.At(i)
  {
    var lead, ks, photos := LeadTweakables(c), KsTweakables(c, CameraDistortionKs), PhotosTweakables(c.photos, keys);
    KsExactlyUnlocked(c, CameraDistortionKs);
    NotAmongPhotos(photos);
    assert CameraTweakables(c, keys) == lead + ks + photos;
  }

  /** A tweakable that is not a photo's is not among the tweakables of
      photos. */
  lemma NotAmongPhotos(photos: seq<Tweakable>)
    requires forall i :: 0 <= i < |photos| ==> photos[i].OfPhoto()
    ensures forall t :: t in photos ==> t.OfPhoto()
  {
  }

  /** The camera's own tweakables come first, the distortion coefficients
      in index order, and once a photo's tweakable appears only photo
      tweakables follow. */
  lemma CameraOrder(c: Camera, keys: seq<string>)
    requires forall i :: 0 <= i < |keys| ==> keys[i] in c.photos
    ensures var r := CameraTweakables(c, keys);
      forall i, j :: 0 <= i < j < |r| && r[i].OfPhoto() ==> r[j].OfPhoto()
    ensures var r := CameraTweakables(c, keys);
      forall i, j :: 0 <= i < j < |r| && r[i].CameraK? && r[j].CameraK? ==> r[i].index < r[j].index
  {
    var lead, ks, photos := LeadTweakables(c), KsTweakables(c, CameraDistortionKs), PhotosTweakables(c.photos, keys);
    KsExactlyUnlocked(c, CameraDistortionKs);
    var own := lead + ks;
    var r := own + photos;
    assert CameraTweakables(c, keys) == r;
    assert forall i :: 0 <= i < |own| ==> !own[i].OfPhoto() by {
      forall i | 0 <= i < |own|
        ensures !own[i].OfPhoto()
      {
        if i < |lead| {
          assert own[i] == lead[i];
        } else {
          assert own[i] == ks[i - |lead|];
        }
      }
    }
    forall i, j | 0 <= i < j < |r| && r[i].CameraK? && r[j].CameraK?
      ensures r[i].index < r[j].index
    {
      KIndexWithinKs(lead, ks, photos, i);
      KIndexWithinKs(lead, ks, photos, j);
    }
  }

  /** A distortion coefficient of lead + ks + photos lies in ks. */
  lemma KIndexWithinKs(lead: seq<Tweakable>, ks: seq<Tweakable>, photos: seq<Tweakable>, i: int)
    requires forall k :: 0 <= k < |lead| ==> lead[k].CameraAov? || lead[k].CameraCenter?
    requires forall k :: 0 <= k < |photos| ==> photos[k].OfPhoto()
    requires 0 <= i < |lead + ks + photos| && (lead + ks + photos)[i].CameraK?
    ensures |lead| <= i < |lead| + |ks| && (lead + ks + photos)[i] == ks[i - |lead|]
  {
  }

  /** The offset is a tweakable exactly when it is not locked, likewise the
      side offset; they come first, in that order, and the position comes
      last. */
  lemma TripodLocks(tr: Tripod)
    ensures var r := TripodTweakables(tr);
      (TripodOffset(tr) in r <==> !tr.offsetLock) && (TripodOffsetSide(tr) in r <==> !tr.offsetSideLock) &&
      |r| >= 3 && r[|r| - 3..] == [TripodPosition(tr, X), TripodPosition(tr, Y), TripodPosition(tr, Z)] &&
      (!tr.offsetLock ==> r[0] == TripodOffset(tr)) &&
      (!tr.offsetSideLock ==> r[if tr.offsetLock then 0 else 1] == TripodOffsetSide(tr))
  {
    var offsets := (if !tr.offsetLock then [TripodOffset(tr)] else []) +
                   (if !tr.offsetSideLock then [TripodOffsetSide(tr)] else []);
    var position := [TripodPosition(tr, X), TripodPosition(tr, Y), TripodPosition(tr, Z)];
    assert TripodTweakables(tr) == offsets + position;
    assert forall t :: t in position ==> t.TripodPosition?;
  }

  /** No locked field of a camera is among its tweakables. */
  lemma CameraUnlocked(c: Camera, keys: seq<string>)
    requires forall i :: 0 <= i < |keys| ==> keys[i] in c.photos
    ensures forall t :: t in CameraTweakables(c, keys) ==> Unlocked(t)
  {
    var lead, ks, photos := LeadTweakables(c), KsTweakables(c, CameraDistortionKs), PhotosTweakables(c.photos, keys);
    KsExactlyUnlocked(c, CameraDistortionKs);
    NotAmongPhotos(photos);
    assert CameraTweakables(c, keys) == lead + ks + photos;
    forall t | t in lead
      ensures Unlocked(t)
    {
    }
  }

  /** No locked field of a tripod is among its tweakables. */
  lemma TripodUnlocked(tr: Tripod)
    ensures forall t :: t in TripodTweakables(tr) ==> Unlocked(t)
  {
  }

  // ---------------------------------------------------------------- Flattening one entity

  /** A key order lists exactly the keys of a map (each once). */
  ghost predicate Listing<T>(keys: seq<string>, m: map<string, T>)
  {
    multiset(keys) == multiset(m.Keys)
  }

  /** Every key of a listing is a key of the map. */
  lemma ListingKeys<T>(keys: seq<string>, m: map<string, T>)
    requires Listing(keys, m)
    ensures forall i :: 0 <= i < |keys| ==> keys[i] in m
  {
    forall i | 0 <= i < |keys|
      ensures keys[i] in m
    {
      assert keys[i] in multiset(keys);
    }
  }

  /** camera.go: GetTweakablesAndResiduals. keys is the newest-first
      order of the photos that PhotosSorted produced. */
  method CameraTweakablesAndResiduals(c: Camera) returns (ts: seq<Tweakable>, rs: seq<Residual>, ghost keys: seq<string>)
    ensures Listing(keys, c.photos) && NewestFirst(keys, PhotoStamps(c.photos))
    ensures forall i :: 0 <= i < |keys| ==> keys[i] in c.photos
    ensures ts == CameraTweakables(c, keys) && rs == PhotosResiduals(c.photos, keys)
  {
    ts := CameraOwnTweakablesOf(c);
    rs := [];
    var photos;
    photos, keys := c.PhotosSorted();
    ListingKeys(keys, c.photos);
    for j := 0 to |photos|
      invariant ts == CameraOwnTweakables(c) + PhotosTweakables(c.photos, keys[..j])
      invariant rs == PhotosResiduals(c.photos, keys[..j])
    {
      assert keys[..j + 1][..j] == keys[..j];
      ts := ts + PhotoTweakables(photos[j]);
      rs := rs + [PhotoResidual(photos[j])];
    }
    assert keys[..|photos|] == keys;
  }

  /** The first part of CameraTweakablesAndResiduals: the camera's own
      tweakables. */
  method CameraOwnTweakablesOf(c: Camera) returns (ts: seq<Tweakable>)
    ensures ts == CameraOwnTweakables(c)
  {
    ts := [];
    if !c.longSideAovLocked {
      ts := ts + [CameraAov(c)];
    }
    if !c.distortionImageCenterLocked {
      ts := ts + [CameraCenter(c, X)];
      ts := ts + [CameraCenter(c, Y)];
    }
    assert ts == LeadTweakables(c) + KsTweakables(c, 0);
    for i := 0 to CameraDistortionKs
      invariant ts == LeadTweakables(c) + KsTweakables(c, i)
    {
      var step := if !c.distortionKsLocked.At(i) then [CameraK(c, i)] else [];
      assert KsTweakables(c, i + 1) == KsTweakables(c, i) + step;
      AppendAssociative(LeadTweakables(c), KsTweakables(c, i), step);
      if !c.distortionKsLocked.At(i) {
        ts := ts + [CameraK(c, i)];
      }
    }
  }

  lemma AppendAssociative<T>(a: seq<T>, b: seq<T>, c: seq<T>)
    ensures a + b + c == a + (b + c)
  {
  }

  /** rangefinder.go: GetTweakablesAndResiduals. The measurements are
      visited in map order, which is unspecified: keys is the order used. */
  method RangefinderTweakablesAndResiduals(r: Rangefinder) returns (ts: seq<Tweakable>, rs: seq<Residual>, ghost keys: seq<string>)
    ensures Listing(keys, r.measurements)
    ensures forall i :: 0 <= i < |keys| ==> keys[i] in r.measurements
    ensures ts == [] && rs == RangefinderResiduals(r.measurements, keys)
  {
    ts, rs, keys := [], [], [];
    var todo := r.measurements.Keys;
    while todo != {}
      invariant todo <= r.measurements.Keys
      invariant multiset(keys) + multiset(todo) == multiset(r.measurements.Keys)
      invariant forall i :: 0 <= i < |keys| ==> keys[i] in r.measurements
      invariant rs == RangefinderResiduals(r.measurements, keys)
      decreases |todo|
    {
      var k :| k in todo;
      assert (keys + [k])[..|keys|] == keys;
      rs := rs + [RangefinderResidual(r.measurements[k])];
      keys := keys + [k];
      todo := todo - {k};
    }
  }

  /** tripod.go: GetTweakablesAndResiduals. keys is the newest-first order
      of the measurements that MeasurementsSorted produced. */
  method TripodTweakablesAndResiduals(tr: Tripod) returns (ts: seq<Tweakable>, rs: seq<Residual>, ghost keys: seq<string>)
    ensures Listing(keys, tr.measurements) && NewestFirst(keys, TripodMeasurementStamps(tr.measurements))
    ensures forall i :: 0 <= i < |keys| ==> keys[i] in tr.measurements
    ensures ts == TripodTweakables(tr) && rs == TripodResiduals(tr.measurements, keys)
  {
    ts, rs := [], [];
    if !tr.offsetLock {
      ts := ts + [TripodOffset(tr)];
    }
    if !tr.offsetSideLock {
      ts := ts + [TripodOffsetSide(tr)];
    }
    var measurements;
    measurements, keys := tr.MeasurementsSorted();
    ListingKeys(keys, tr.measurements);
    for j := 0 to |measurements|
      invariant rs == TripodResiduals(tr.measurements, keys[..j])
    {
      assert keys[..j + 1][..j] == keys[..j];
      rs := rs + [TripodResidual(measurements[j])];
    }
    assert keys[..|measurements|] == keys;
    ts := ts + CoordinateTweakables(axis => TripodPosition(tr, axis));
  }

  // ---------------------------------------------------------------- Flattening the site

  /** The orders a flattening of the site used: the key order of every
      group, and for every camera, rangefinder and tripod (by position in
      its group) the key order of its photos or measurements. */
  datatype Order = Order(points: seq<string>, lines: seq<string>, cameras: seq<string>, photos: seq<seq<string>>,
                         rangefinders: seq<string>, rangefinderMeasurements: seq<seq<string>>,
                         tripods: seq<string>, tripodMeasurements: seq<seq<string>>)

  /** The tweakables of the points under keys, in that order. */
  function PointsTweakables(m: map<string, Point>, keys: seq<string>): (r: seq<Tweakable>)
    requires forall i :: 0 <= i < |keys| ==> keys[i] in m
    ensures |r| == 3 * |keys|
  {
    if keys == [] then []
    else PointsTweakables(m, keys[..|keys| - 1]) + PointTweakables(m[keys[|keys| - 1]])
  }

  /** One residual per line under keys, in that order. */
  function LinesResiduals(m: map<string, Line>, keys: seq<string>): (r: seq<Residual>)
    requires forall i :: 0 <= i < |keys| ==> keys[i] in m
    ensures |r| == |keys| && forall i :: 0 <= i < |keys| ==> r[i] == LineResidual(m[keys[i]])
  {
    if keys == [] then []
    else LinesResiduals(m, keys[..|keys| - 1]) + LineResiduals(m[keys[|keys| - 1]])
  }

  /** The camera under keys[i] lists its photos in the order photos[i]. */
  ghost predicate CamerasCovered(m: map<string, Camera>, keys: seq<string>, photos: seq<seq<string>>)
    reads m.Values`photos
  {
    |photos| == |keys| &&
    (keys != [] ==>
       var n := |keys| - 1;
       CamerasCovered(m, keys[..n], photos[..n]) &&
       keys[n] in m && forall j :: 0 <= j < |photos[n]| ==> photos[n][j] in m[keys[n]].photos)
  }

  function CamerasTweakables(m: map<string, Camera>, keys: seq<string>, photos: seq<seq<string>>): (r: seq<Tweakable>)
    requires CamerasCovered(m, keys, photos)
    reads m.Values`longSideAovLocked, m.Values`distortionImageCenterLocked, m.Values`distortionKsLocked
    reads m.Values`photos
  {
    if keys == [] then []
    else
      var n := |keys| - 1;
      CamerasTweakables(m, keys[..n], photos[..n]) + CameraTweakables(m[keys[n]], photos[n])
  }

  function CamerasResiduals(m: map<string, Camera>, keys: seq<string>, photos: seq<seq<string>>): (r: seq<Residual>)
    requires CamerasCovered(m, keys, photos)
    reads m.Values`photos
  {
    if keys == [] then []
    else
      var n := |keys| - 1;
      CamerasResiduals(m, keys[..n], photos[..n]) + PhotosResiduals(m[keys[n]].photos, photos[n])
  }

  /** The rangefinder under keys[i] visits its measurements in the order
      measurements[i]. */
  ghost predicate RangefindersCovered(m: map<string, Rangefinder>, keys: seq<string>, measurements: seq<seq<string>>)
    reads m.Values`measurements
  {
    |measurements| == |keys| &&
    (keys != [] ==>
       var n := |keys| - 1;
       RangefindersCovered(m, keys[..n], measurements[..n]) &&
       keys[n] in m && forall j :: 0 <= j < |measurements[n]| ==> measurements[n][j] in m[keys[n]].measurements)
  }

  function RangefindersResiduals(m: map<string, Rangefinder>, keys: seq<string>, measurements: seq<seq<string>>): (r: seq<Residual>)
    requires RangefindersCovered(m, keys, measurements)
    reads m.Values`measurements
  {
    if keys == [] then []
    else
      var n := |keys| - 1;
      RangefindersResiduals(m, keys[..n], measurements[..n]) +
      RangefinderResiduals(m[keys[n]].measurements, measurements[n])
  }

  /** The tripod under keys[i] lists its measurements in the order
      measurements[i]. */
  ghost predicate TripodsCovered(m: map<string, Tripod>, keys: seq<string>, measurements: seq<seq<string>>)
    reads m.Values`measurements
  {
    |measurements| == |keys| &&
    (keys != [] ==>
       var n := |keys| - 1;
       TripodsCovered(m, keys[..n], measurements[..n]) &&
       keys[n] in m && forall j :: 0 <= j < |measurements[n]| ==> measurements[n][j] in m[keys[n]].measurements)
  }

  function TripodsTweakables(m: map<string, Tripod>, keys: seq<string>): (r: seq<Tweakable>)
    requires forall i :: 0 <= i < |keys| ==> keys[i] in m
    reads m.Values`offsetLock, m.Values`offsetSideLock
  {
    if keys == [] then []
    else TripodsTweakables(m, keys[..|keys| - 1]) + TripodTweakables(m[keys[|keys| - 1]])
  }

  function TripodsResiduals(m: map<string, Tripod>, keys: seq<string>, measurements: seq<seq<string>>): (r: seq<Residual>)
    requires TripodsCovered(m, keys, measurements)
    reads m.Values`measurements
  {
    if keys == [] then []
    else
      var n := |keys| - 1;
      TripodsResiduals(m, keys[..n], measurements[..n]) + TripodResiduals(m[keys[n]].measurements, measurements[n])
  }

  /** site.go: the tweakables of the points, lines, cameras, rangefinders
      and tripods, in that group order, each group in the order o gives. */
  function SiteTweakables(s: Site, o: Order): (r: seq<Tweakable>)
    requires ValidOrder(s, o)
    reads s`points, s`lines, s`cameras, s.cameras.Values`photos, s`rangefinders, s.rangefinders.Values`measurements
    reads s`tripods, s.tripods.Values`measurements
    reads s.points.Values`createdAt, s.lines.Values`createdAt, s.cameras.Values`createdAt
    reads s.rangefinders.Values`createdAt, s.tripods.Values`createdAt
    reads s.cameras.Values`longSideAovLocked, s.cameras.Values`distortionImageCenterLocked
    reads s.cameras.Values`distortionKsLocked, s.tripods.Values`offsetLock, s.tripods.Values`offsetSideLock
  {
    TripodsCoveredKeys(s.tripods, o.tripods, o.tripodMeasurements);
    PointsTweakables(s.points, o.points) + CamerasTweakables(s.cameras, o.cameras, o.photos) +
    TripodsTweakables(s.tripods, o.tripods)
  }

  /** site.go: the residuals, in the same group order. */
  function SiteResiduals(s: Site, o: Order): (r: seq<Residual>)
    requires ValidOrder(s, o)
    reads s`points, s`lines, s`cameras, s.cameras.Values`photos, s`rangefinders, s.rangefinders.Values`measurements
    reads s`tripods, s.tripods.Values`measurements
    reads s.points.Values`createdAt, s.lines.Values`createdAt, s.cameras.Values`createdAt
    reads s.rangefinders.Values`createdAt, s.tripods.Values`createdAt
  {
    LinesResiduals(s.lines, o.lines) + CamerasResiduals(s.cameras, o.cameras, o.photos) +
    RangefindersResiduals(s.rangefinders, o.rangefinders, o.rangefinderMeasurements) +
    TripodsResiduals(s.tripods, o.tripods, o.tripodMeasurements)
  }

  /** Every camera lists each of its photos exactly once. */
  ghost predicate CamerasOrdered(m: map<string, Camera>, keys: seq<string>, photos: seq<seq<string>>)
    requires CamerasCovered(m, keys, photos)
    reads m.Values`photos
  {
    keys != [] ==>
      var n := |keys| - 1;
      CamerasOrdered(m, keys[..n], photos[..n]) && Listing(photos[n], m[keys[n]].photos)
  }

  /** Every rangefinder lists each of its measurements exactly once. */
  ghost predicate RangefindersOrdered(m: map<string, Rangefinder>, keys: seq<string>, measurements: seq<seq<string>>)
    requires RangefindersCovered(m, keys, measurements)
    reads m.Values`measurements
  {
    keys != [] ==>
      var n := |keys| - 1;
      RangefindersOrdered(m, keys[..n], measurements[..n]) && Listing(measurements[n], m[keys[n]].measurements)
  }

  /** A tripod listing names keys of the map only. */
  lemma {:induction false} TripodsCoveredKeys(m: map<string, Tripod>, keys: seq<string>, measurements: seq<seq<string>>)
    requires TripodsCovered(m, keys, measurements)
    ensures forall i :: 0 <= i < |keys| ==> keys[i] in m
  {
    if keys != [] {
      var n := |keys| - 1;
      TripodsCoveredKeys(m, keys[..n], measurements[..n]);
      assert forall i :: 0 <= i < n ==> keys[i] == keys[..n][i];
    }
  }

  /** Every tripod lists each of its measurements exactly once. */
  ghost predicate TripodsOrdered(m: map<string, Tripod>, keys: seq<string>, measurements: seq<seq<string>>)
    requires TripodsCovered(m, keys, measurements)
    reads m.Values`measurements
  {
    keys != [] ==>
      var n := |keys| - 1;
      TripodsOrdered(m, keys[..n], measurements[..n]) && Listing(measurements[n], m[keys[n]].measurements)
  }

  /** keys lists every point once, newest first. */
  ghost predicate PointsListed(s: Site, keys: seq<string>)
    reads s`points, s.points.Values`createdAt
  {
    Listing(keys, s.points) && NewestFirst(keys, PointStamps(s.points)) &&
    forall i :: 0 <= i < |keys| ==> keys[i] in s.points
  }

  /** keys lists every line once, newest first. */
  ghost predicate LinesListed(s: Site, keys: seq<string>)
    reads s`lines, s.lines.Values`createdAt
  {
    Listing(keys, s.lines) && NewestFirst(keys, LineStamps(s.lines)) &&
    forall i :: 0 <= i < |keys| ==> keys[i] in s.lines
  }

  /** keys lists every camera once, newest first, and photos[i] every
      photo of the camera under keys[i] once. */
  ghost predicate CamerasListed(s: Site, keys: seq<string>, photos: seq<seq<string>>)
    reads s`cameras, s.cameras.Values`createdAt, s.cameras.Values`photos
  {
    Listing(keys, s.cameras) && NewestFirst(keys, CameraStamps(s.cameras)) &&
    CamerasCovered(s.cameras, keys, photos) && CamerasOrdered(s.cameras, keys, photos)
  }

  /** keys lists every rangefinder once, newest first, and
      measurements[i] every measurement of the rangefinder under keys[i]
      once. */
  ghost predicate RangefindersListed(s: Site, keys: seq<string>, measurements: seq<seq<string>>)
    reads s`rangefinders, s.rangefinders.Values`createdAt, s.rangefinders.Values`measurements
  {
    Listing(keys, s.rangefinders) && NewestFirst(keys, RangefinderStamps(s.rangefinders)) &&
    RangefindersCovered(s.rangefinders, keys, measurements) && RangefindersOrdered(s.rangefinders, keys, measurements)
  }

  /** keys lists every tripod once, newest first, and measurements[i]
      every measurement of the tripod under keys[i] once. */
  ghost predicate TripodsListed(s: Site, keys: seq<string>, measurements: seq<seq<string>>)
    reads s`tripods, s.tripods.Values`createdAt, s.tripods.Values`measurements
  {
    Listing(keys, s.tripods) && NewestFirst(keys, TripodStamps(s.tripods)) &&
    TripodsCovered(s.tripods, keys, measurements) && TripodsOrdered(s.tripods, keys, measurements)
  }

  /** The orders a flattening may use: every group newest first, and
      every camera's photos and every rangefinder's and tripod's
      measurements each listed exactly once. (Within one camera or tripod
      the order is newest first too; CameraTweakablesAndResiduals and
      TripodTweakablesAndResiduals state that.) */
  ghost predicate ValidOrder(s: Site, o: Order)
    reads s`points, s`lines, s`cameras, s.cameras.Values`photos, s`rangefinders, s.rangefinders.Values`measurements
    reads s`tripods, s.tripods.Values`measurements
    reads s.points.Values`createdAt, s.lines.Values`createdAt, s.cameras.Values`createdAt
    reads s.rangefinders.Values`createdAt, s.tripods.Values`createdAt
  {
    PointsListed(s, o.points) && LinesListed(s, o.lines) && CamerasListed(s, o.cameras, o.photos) &&
    RangefindersListed(s, o.rangefinders, o.rangefinderMeasurements) &&
    TripodsListed(s, o.tripods, o.tripodMeasurements)
  }

  /** The point loop's result: keys lists the points, ts holds their
      tweakables in that order. */
  ghost predicate PointsDone(s: Site, keys: seq<string>, ts: seq<Tweakable>)
    reads s`points, s.points.Values`createdAt
  {
    PointsListed(s, keys) && ts == PointsTweakables(s.points, keys)
  }

  /** The line loop's result. */
  ghost predicate LinesDone(s: Site, keys: seq<string>, rs: seq<Residual>)
    reads s`lines, s.lines.Values`createdAt
  {
    LinesListed(s, keys) && rs == LinesResiduals(s.lines, keys)
  }

  /** The camera loop's result. */
  ghost predicate CamerasDone(s: Site, keys: seq<string>, photos: seq<seq<string>>, ts: seq<Tweakable>, rs: seq<Residual>)
    reads s`cameras, s.cameras.Values`createdAt, s.cameras.Values`photos
    reads s.cameras.Values`longSideAovLocked, s.cameras.Values`distortionImageCenterLocked, s.cameras.Values`distortionKsLocked
  {
    Listing(keys, s.cameras) && NewestFirst(keys, CameraStamps(s.cameras)) && CamerasPart(s.cameras, keys, photos, ts, rs)
  }

  /** The rangefinder loop's result; the rangefinders contribute no
      tweakable. */
  ghost predicate RangefindersDone(s: Site, keys: seq<string>, measurements: seq<seq<string>>, ts: seq<Tweakable>,
                                   rs: seq<Residual>)
    reads s`rangefinders, s.rangefinders.Values`createdAt, s.rangefinders.Values`measurements
  {
    ts == [] && Listing(keys, s.rangefinders) && NewestFirst(keys, RangefinderStamps(s.rangefinders)) &&
    RangefindersPart(s.rangefinders, keys, measurements, rs)
  }

  /** The tripod loop's result. */
  ghost predicate TripodsDone(s: Site, keys: seq<string>, measurements: seq<seq<string>>, ts: seq<Tweakable>, rs: seq<Residual>)
    reads s`tripods, s.tripods.Values`createdAt, s.tripods.Values`measurements
    reads s.tripods.Values`offsetLock, s.tripods.Values`offsetSideLock
  {
    Listing(keys, s.tripods) && NewestFirst(keys, TripodStamps(s.tripods)) &&
    TripodsPart(s.tripods, keys, measurements, ts, rs)
  }

  /** The point loop of the site's GetTweakablesAndResiduals. */
  method PointsGroup(s: Site) returns (ts: seq<Tweakable>, ghost keys: seq<string>)
    ensures PointsDone(s, keys, ts)
  {
    var points;
    points, keys := s.PointsSorted();
    ts := [];
    for i := 0 to |points|
      invariant ts == PointsTweakables(s.points, keys[..i])
    {
      assert keys[..i + 1][..i] == keys[..i];
      ts := ts + PointTweakables(points[i]);
    }
    assert keys[..|points|] == keys;
  }

  /** The line loop of the site's GetTweakablesAndResiduals. */
  method LinesGroup(s: Site) returns (rs: seq<Residual>, ghost keys: seq<string>)
    ensures LinesDone(s, keys, rs)
  {
    var lines;
    lines, keys := s.LinesSorted();
    rs := [];
    for i := 0 to |lines|
      invariant rs == LinesResiduals(s.lines, keys[..i])
    {
      assert keys[..i + 1][..i] == keys[..i];
      rs := rs + LineResiduals(lines[i]);
    }
    assert keys[..|lines|] == keys;
  }

  /** The cameras under keys, with their photo orders, contributed the
      tweakables ts and the residuals rs. */
  ghost predicate CamerasPart(m: map<string, Camera>, keys: seq<string>, photos: seq<seq<string>>,
                              ts: seq<Tweakable>, rs: seq<Residual>)
    reads m.Values`photos
    reads m.Values`longSideAovLocked, m.Values`distortionImageCenterLocked, m.Values`distortionKsLocked
  {
    CamerasCovered(m, keys, photos) && CamerasOrdered(m, keys, photos) &&
    ts == CamerasTweakables(m, keys, photos) && rs == CamerasResiduals(m, keys, photos)
  }

  /** One more camera extends the cameras' contribution by its own. */
  lemma CamerasPartStep(m: map<string, Camera>, keys: seq<string>, i: nat, photos: seq<seq<string>>, ts: seq<Tweakable>,
                        rs: seq<Residual>, ph: seq<string>, cts: seq<Tweakable>, crs: seq<Residual>)
    requires i < |keys| && CamerasPart(m, keys[..i], photos, ts, rs) && keys[i] in m
    requires forall j :: 0 <= j < |ph| ==> ph[j] in m[keys[i]].photos
    requires Listing(ph, m[keys[i]].photos)
    requires cts == CameraTweakables(m[keys[i]], ph) && crs == PhotosResiduals(m[keys[i]].photos, ph)
    ensures CamerasPart(m, keys[..i + 1], photos + [ph], ts + cts, rs + crs)
  {
    CamerasListedStep(m, keys, i, photos, ph);
    CamerasContributionStep(m, keys, i, photos, ph);
  }

  lemma CamerasListedStep(m: map<string, Camera>, keys: seq<string>, i: nat, photos: seq<seq<string>>, ph: seq<string>)
    requires i < |keys| && CamerasCovered(m, keys[..i], photos) && CamerasOrdered(m, keys[..i], photos) && keys[i] in m
    requires forall j :: 0 <= j < |ph| ==> ph[j] in m[keys[i]].photos
    requires Listing(ph, m[keys[i]].photos)
    ensures CamerasCovered(m, keys[..i + 1], photos + [ph]) && CamerasOrdered(m, keys[..i + 1], photos + [ph])
  {
    assert keys[..i + 1][..i] == keys[..i] && (photos + [ph])[..i] == photos;
  }

  lemma CamerasContributionStep(m: map<string, Camera>, keys: seq<string>, i: nat, photos: seq<seq<string>>, ph: seq<string>)
    requires i < |keys| && CamerasCovered(m, keys[..i + 1], photos + [ph])
    ensures CamerasCovered(m, keys[..i], photos)
    ensures CamerasTweakables(m, keys[..i + 1], photos + [ph]) ==
            CamerasTweakables(m, keys[..i], photos) + CameraTweakables(m[keys[i]], ph)
    ensures CamerasResiduals(m, keys[..i + 1], photos + [ph]) ==
            CamerasResiduals(m, keys[..i], photos) + PhotosResiduals(m[keys[i]].photos, ph)
  {
    assert keys[..i + 1][..i] == keys[..i] && (photos + [ph])[..i] == photos;
  }

  /** The camera loop of the site's GetTweakablesAndResiduals. */
  method CamerasGroup(s: Site) returns (ts: seq<Tweakable>, rs: seq<Residual>, ghost keys: seq<string>, ghost photos: seq<seq<string>>)
    ensures CamerasDone(s, keys, photos, ts, rs)
  {
    var cameras;
    cameras, keys := s.CamerasSorted();
    ts, rs, photos := [], [], [];
    for i := 0 to |cameras|
      invariant CamerasPart(s.cameras, keys[..i], photos, ts, rs)
    {
      var cts, crs, cphotos := CameraTweakablesAndResiduals(cameras[i]);
      CamerasPartStep(s.cameras, keys, i, photos, ts, rs, cphotos, cts, crs);
      ts, rs, photos := ts + cts, rs + crs, photos + [cphotos];
    }
    assert keys[..|cameras|] == keys;
  }

  /** The rangefinders under keys, with their measurement orders,
      contributed the residuals rs. */
  ghost predicate RangefindersPart(m: map<string, Rangefinder>, keys: seq<string>, measurements: seq<seq<string>>,
                                   rs: seq<Residual>)
    reads m.Values`measurements
  {
    RangefindersCovered(m, keys, measurements) && RangefindersOrdered(m, keys, measurements) &&
    rs == RangefindersResiduals(m, keys, measurements)
  }

  /** One more rangefinder extends the rangefinders' contribution by its own. */
  lemma RangefindersPartStep(m: map<string, Rangefinder>, keys: seq<string>, i: nat, measurements: seq<seq<string>>,
                             rs: seq<Residual>, mk: seq<string>, rrs: seq<Residual>)
    requires i < |keys| && RangefindersPart(m, keys[..i], measurements, rs) && keys[i] in m
    requires forall j :: 0 <= j < |mk| ==> mk[j] in m[keys[i]].measurements
    requires Listing(mk, m[keys[i]].measurements) && rrs == RangefinderResiduals(m[keys[i]].measurements, mk)
    ensures RangefindersPart(m, keys[..i + 1], measurements + [mk], rs + rrs)
  {
    assert keys[..i + 1][..i] == keys[..i] && (measurements + [mk])[..i] == measurements;
  }

  /** The rangefinder loop of the site's GetTweakablesAndResiduals; the
      rangefinders contribute no tweakable. */
  method RangefindersGroup(s: Site) returns (ts: seq<Tweakable>, rs: seq<Residual>, ghost keys: seq<string>, ghost measurements: seq<seq<string>>)
    ensures RangefindersDone(s, keys, measurements, ts, rs)
  {
    var rangefinders;
    rangefinders, keys := s.RangefindersSorted();
    ts, rs, measurements := [], [], [];
    for i := 0 to |rangefinders|
      invariant ts == [] && RangefindersPart(s.rangefinders, keys[..i], measurements, rs)
    {
      var rts, rrs, rkeys := RangefinderTweakablesAndResiduals(rangefinders[i]);
      RangefindersPartStep(s.rangefinders, keys, i, measurements, rs, rkeys, rrs);
      ts, rs, measurements := ts + rts, rs + rrs, measurements + [rkeys];
    }
    assert keys[..|rangefinders|] == keys;
  }

  /** The tripods under keys, with their measurement orders, contributed
      the tweakables ts and the residuals rs. */
  ghost predicate TripodsPart(m: map<string, Tripod>, keys: seq<string>, measurements: seq<seq<string>>,
                              ts: seq<Tweakable>, rs: seq<Residual>)
    reads m.Values`measurements, m.Values`offsetLock, m.Values`offsetSideLock
  {
    TripodsCovered(m, keys, measurements) && TripodsOrdered(m, keys, measurements) &&
    (TripodsCoveredKeys(m, keys, measurements); ts == TripodsTweakables(m, keys)) && rs == TripodsResiduals(m, keys, measurements)
  }

  /** One more tripod extends the tripods' contribution by its own. */
  lemma TripodsPartStep(m: map<string, Tripod>, keys: seq<string>, i: nat, measurements: seq<seq<string>>,
                        ts: seq<Tweakable>, rs: seq<Residual>, mk: seq<string>, tts: seq<Tweakable>, trs: seq<Residual>)
    requires i < |keys| && TripodsPart(m, keys[..i], measurements, ts, rs) && keys[i] in m
    requires forall j :: 0 <= j < |mk| ==> mk[j] in m[keys[i]].measurements
    requires Listing(mk, m[keys[i]].measurements)
    requires tts == TripodTweakables(m[keys[i]]) && trs == TripodResiduals(m[keys[i]].measurements, mk)
    ensures TripodsPart(m, keys[..i + 1], measurements + [mk], ts + tts, rs + trs)
  {
    TripodsListedStep(m, keys, i, measurements, mk);
    TripodsContributionStep(m, keys, i, measurements, mk);
  }

  lemma TripodsListedStep(m: map<string, Tripod>, keys: seq<string>, i: nat, measurements: seq<seq<string>>, mk: seq<string>)
    requires i < |keys| && keys[i] in m
    requires TripodsCovered(m, keys[..i], measurements) && TripodsOrdered(m, keys[..i], measurements)
    requires forall j :: 0 <= j < |mk| ==> mk[j] in m[keys[i]].measurements
    requires Listing(mk, m[keys[i]].measurements)
    ensures TripodsCovered(m, keys[..i + 1], measurements + [mk]) && TripodsOrdered(m, keys[..i + 1], measurements + [mk])
  {
    assert keys[..i + 1][..i] == keys[..i] && (measurements + [mk])[..i] == measurements;
  }

  lemma TripodsContributionStep(m: map<string, Tripod>, keys: seq<string>, i: nat, measurements: seq<seq<string>>, mk: seq<string>)
    requires i < |keys| && TripodsCovered(m, keys[..i + 1], measurements + [mk])
    ensures TripodsCovered(m, keys[..i], measurements)
    ensures (TripodsCoveredKeys(m, keys[..i + 1], measurements + [mk]); TripodsCoveredKeys(m, keys[..i], measurements);
             TripodsTweakables(m, keys[..i + 1]) == TripodsTweakables(m, keys[..i]) + TripodTweakables(m[keys[i]]))
    ensures TripodsResiduals(m, keys[..i + 1], measurements + [mk]) ==
            TripodsResiduals(m, keys[..i], measurements) + TripodResiduals(m[keys[i]].measurements, mk)
  {
    assert keys[..i + 1][..i] == keys[..i] && (measurements + [mk])[..i] == measurements;
  }

  /** The tripod loop of the site's GetTweakablesAndResiduals. */
  method TripodsGroup(s: Site) returns (ts: seq<Tweakable>, rs: seq<Residual>, ghost keys: seq<string>, ghost measurements: seq<seq<string>>)
    ensures TripodsDone(s, keys, measurements, ts, rs)
  {
    var tripods;
    tripods, keys := s.TripodsSorted();
    ts, rs, measurements := [], [], [];
    for i := 0 to |tripods|
      invariant TripodsPart(s.tripods, keys[..i], measurements, ts, rs)
    {
      var tts, trs, tkeys := TripodTweakablesAndResiduals(tripods[i]);
      TripodsPartStep(s.tripods, keys, i, measurements, ts, rs, tkeys, tts, trs);
      ts, rs, measurements := ts + tts, rs + trs, measurements + [tkeys];
    }
    assert keys[..|tripods|] == keys;
  }

  /** The five groups' contributions make up the site's flattening. */
  lemma SiteFromGroups(s: Site, o: Order, pts: seq<Tweakable>, lrs: seq<Residual>, cts: seq<Tweakable>, crs: seq<Residual>,
                       rts: seq<Tweakable>, rrs: seq<Residual>, tts: seq<Tweakable>, trs: seq<Residual>)
    requires PointsDone(s, o.points, pts) && LinesDone(s, o.lines, lrs) && CamerasDone(s, o.cameras, o.photos, cts, crs)
    requires RangefindersDone(s, o.rangefinders, o.rangefinderMeasurements, rts, rrs)
    requires TripodsDone(s, o.tripods, o.tripodMeasurements, tts, trs)
    ensures ValidOrder(s, o)
    ensures SiteTweakables(s, o) == pts + cts + rts + tts && SiteResiduals(s, o) == lrs + crs + rrs + trs
  {
    assert pts + cts + rts == pts + cts;
  }

  /** The point and line loops of the site's GetTweakablesAndResiduals. */
  method PointsAndLinesGroups(s: Site) returns (pts: seq<Tweakable>, lrs: seq<Residual>, ghost pkeys: seq<string>,
                                                ghost lkeys: seq<string>)
    ensures PointsDone(s, pkeys, pts) && LinesDone(s, lkeys, lrs)
  {
    pts, pkeys := PointsGroup(s);
    lrs, lkeys := LinesGroup(s);
  }

  /** The rangefinder and tripod loops of the site's
      GetTweakablesAndResiduals. */
  method InstrumentsGroups(s: Site) returns (rts: seq<Tweakable>, rrs: seq<Residual>, tts: seq<Tweakable>, trs: seq<Residual>,
                                             ghost rkeys: seq<string>, ghost rmeasurements: seq<seq<string>>,
                                             ghost tkeys: seq<string>, ghost tmeasurements: seq<seq<string>>)
    ensures RangefindersDone(s, rkeys, rmeasurements, rts, rrs) && TripodsDone(s, tkeys, tmeasurements, tts, trs)
  {
    rts, rrs, rkeys, rmeasurements := RangefindersGroup(s);
    tts, trs, tkeys, tmeasurements := TripodsGroup(s);
  }

  /** The camera, rangefinder and tripod loops of the site's
      GetTweakablesAndResiduals. */
  method DevicesGroups(s: Site) returns (cts: seq<Tweakable>, crs: seq<Residual>, rts: seq<Tweakable>, rrs: seq<Residual>,
                                         tts: seq<Tweakable>, trs: seq<Residual>, ghost o: Order)
    ensures CamerasDone(s, o.cameras, o.photos, cts, crs)
    ensures RangefindersDone(s, o.rangefinders, o.rangefinderMeasurements, rts, rrs)
    ensures TripodsDone(s, o.tripods, o.tripodMeasurements, tts, trs)
  {
    ghost var ckeys, cphotos, rkeys, rmeasurements, tkeys, tmeasurements;
    cts, crs, ckeys, cphotos := CamerasGroup(s);
    o := Order([], [], ckeys, cphotos, [], [], [], []);
    rts, rrs, tts, trs, rkeys, rmeasurements, tkeys, tmeasurements := InstrumentsGroups(s);
    o := o.(rangefinders := rkeys, rangefinderMeasurements := rmeasurements, tripods := tkeys,
            tripodMeasurements := tmeasurements);
  }

  /** site.go: GetTweakablesAndResiduals. o holds the orders the sorted
      listings and the map iterations used. */
  method SiteTweakablesAndResiduals(s: Site) returns (ts: seq<Tweakable>, rs: seq<Residual>, ghost o: Order)
    ensures ValidOrder(s, o)
    ensures ts == SiteTweakables(s, o) && rs == SiteResiduals(s, o)
  {
    var pts, lrs, pkeys, lkeys := PointsAndLinesGroups(s);
    var cts, crs, rts, rrs, tts, trs, devices := DevicesGroups(s);
    o := devices.(points := pkeys, lines := lkeys);
    SiteFromGroups(s, o, pts, lrs, cts, crs, rts, rrs, tts, trs);
    ts := pts + cts + rts + tts;
    rs := lrs + crs + rrs + trs;
  }



  // ---------------------------------------------------------------- Properties of the site's flattening

  /** The points contribute coordinates only. */
  lemma {:induction false} PointsTweakablesAreCoordinates(m: map<string, Point>, keys: seq<string>)
    requires forall i :: 0 <= i < |keys| ==> keys[i] in m
    ensures forall t :: t in PointsTweakables(m, keys) ==> t.PointCoord?
  {
    if keys != [] {
      var n := |keys| - 1;
      PointsTweakablesAreCoordinates(m, keys[..n]);
    }
  }

  /** No camera contributes a locked field. */
  lemma {:induction false} CamerasUnlocked(m: map<string, Camera>, keys: seq<string>, photos: seq<seq<string>>)
    requires CamerasCovered(m, keys, photos)
    ensures forall t :: t in CamerasTweakables(m, keys, photos) ==> Unlocked(t)
  {
    if keys != [] {
      var n := |keys| - 1;
      CamerasUnlocked(m, keys[..n], photos[..n]);
      CameraUnlocked(m[keys[n]], photos[n]);
    }
  }

  /** No tripod contributes a locked field. */
  lemma {:induction false} TripodsUnlocked(m: map<string, Tripod>, keys: seq<string>)
    requires forall i :: 0 <= i < |keys| ==> keys[i] in m
    ensures forall t :: t in TripodsTweakables(m, keys) ==> Unlocked(t)
  {
    if keys != [] {
      var n := |keys| - 1;
      TripodsUnlocked(m, keys[..n]);
      TripodUnlocked(m[keys[n]]);
    }
  }

  /** The optimizer is never handed a locked field of the site: every
      tweakable of the flattened site is unlocked. */
  lemma SiteUnlocked(s: Site, o: Order)
    requires ValidOrder(s, o)
    ensures forall t :: t in SiteTweakables(s, o) ==> Unlocked(t)
  {
    TripodsCoveredKeys(s.tripods, o.tripods, o.tripodMeasurements);
    PointsTweakablesAreCoordinates(s.points, o.points);
    CamerasUnlocked(s.cameras, o.cameras, o.photos);
    TripodsUnlocked(s.tripods, o.tripods);
  }

  /** Each coordinate of the point under keys[i] is among the points'
      tweakables. */
  lemma {:induction false} PointsTweakablesHave(m: map<string, Point>, keys: seq<string>, i: nat, axis: Axis)
    requires forall j :: 0 <= j < |keys| ==> keys[j] in m
    requires i < |keys|
    ensures PointCoord(m[keys[i]], axis) in PointsTweakables(m, keys)
  {
    var n := |keys| - 1;
    if i < n {
      PointsTweakablesHave(m, keys[..n], i, axis);
      assert keys[..n][i] == keys[i];
    } else {
      assert PointTweakables(m[keys[n]]) == [PointCoord(m[keys[n]], X), PointCoord(m[keys[n]], Y), PointCoord(m[keys[n]], Z)];
      assert PointCoord(m[keys[n]], axis) in PointTweakables(m[keys[n]]);
    }
  }

  /** Every coordinate of every point of the site is a tweakable of the
      flattened site. */
  lemma SitePointsComplete(s: Site, o: Order)
    requires ValidOrder(s, o)
    ensures forall k, axis :: k in s.points ==> PointCoord(s.points[k], axis) in SiteTweakables(s, o)
  {
    TripodsCoveredKeys(s.tripods, o.tripods, o.tripodMeasurements);
    forall k, axis | k in s.points
      ensures PointCoord(s.points[k], axis) in SiteTweakables(s, o)
    {
      assert k in multiset(o.points);
      var i :| 0 <= i < |o.points| && o.points[i] == k;
      PointsTweakablesHave(s.points, o.points, i, axis);
    }
  }

  /** Every line of the site is a residual of the flattened site. */
  lemma SiteLinesComplete(s: Site, o: Order)
    requires ValidOrder(s, o)
    ensures forall k :: k in s.lines ==> LineResidual(s.lines[k]) in SiteResiduals(s, o)
  {
    forall k | k in s.lines
      ensures LineResidual(s.lines[k]) in SiteResiduals(s, o)
    {
      assert k in multiset(o.lines);
      var i :| 0 <= i < |o.lines| && o.lines[i] == k;
      assert LinesResiduals(s.lines, o.lines)[i] == LineResidual(s.lines[k]);
    }
  }
}
