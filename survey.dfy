/** The entity tree of a surveyed site (site.go, point.go, line.go,
    camera.go, camera-photo.go, camera-photo-mapping.go, rangefinder.go,
    rangefinder-measurement.go, tripod.go, tripod-measurement.go).

    A site owns points, lines, cameras, rangefinders and tripods; a camera
    owns photos, a photo owns point mappings, rangefinders and tripods own
    measurements. Every container is a map from a short identifier to the
    child object, and every child stores its own key and a reference back
    to its parent. The classes refer to each other in both directions, so
    they share one module.

    Identifiers come from the site's identifier generator; here the
    generated key is a parameter that is not yet in use. The clock is a
    parameter `now`, a time stamp in arbitrary units. */
module Survey {
  import opened Wrappers
  import opened Floats
  import opened Util
  import opened Coordinates
  import opened PixelCoordinates
  import Angles
  import opened Numerics
  import opened Sorting

  /** The number of radial distortion coefficients a camera has (k1 and k2). */
  const CameraDistortionKs: nat := 2

  /** Index of a distortion coefficient. */
  type KIndex = i: int | 0 <= i < CameraDistortionKs

  /** A Go array of CameraDistortionKs values. */
  datatype Pair<T> = Pair(first: T, second: T)
  {
    function At(i: KIndex): (r: T)
      ensures i == 0 ==> r == first
      ensures i == 1 ==> r == second
    {
      if i == 0 then first else second
    }

    function With(i: KIndex, v: T): (r: Pair<T>)
      ensures r.At(i) == v
      ensures forall j: KIndex :: j != i ==> r.At(j) == At(j)
    {
      if i == 0 then Pair(v, second) else Pair(first, v)
    }
  }

  const Origin := Coordinate(0.0, 0.0, 0.0)
  const NoRotation := Rotation(0.0, 0.0, 0.0)

  /** No two keys of the map lead to the same object. */
  predicate Distinct<T(==)>(m: map<string, T>)
  {
    forall k1, k2 :: k1 in m && k2 in m && k1 != k2 ==> m[k1] != m[k2]
  }

  /** Adding an object under a new key keeps the map distinct when the
      object is not in it yet. */
  lemma DistinctInsert<T>(m: map<string, T>, k: string, v: T)
    requires Distinct(m) && k !in m && v !in m.Values
    ensures Distinct(m[k := v]) && m[k := v].Values == m.Values + {v}
  {
    ValuesInsert(m, k, v);
  }

  lemma ValuesInsert<T>(m: map<string, T>, k: string, v: T)
    requires k !in m
    ensures m[k := v].Values == m.Values + {v}
  {
    var m' := m[k := v];
    forall x | x in m'.Values
      ensures x in m.Values + {v}
    {
      var j :| j in m' && m'[j] == x;
      if j != k {
        assert m[j] == x;
      }
    }
    forall x | x in m.Values + {v}
      ensures x in m'.Values
    {
      if x == v {
        assert m'[k] == x;
      } else {
        var j :| j in m && m[j] == x;
        assert m'[j] == x;
      }
    }
  }

  /** Equality of the user-visible data (everything except the key and
      the parent reference) of an entity and its copy. */
  ghost predicate SamePoint(a: Point, b: Point)
    reads a`name, a`createdAt, a`position, a`optimize, b`name, b`createdAt, b`position, b`optimize
  {
    a.name == b.name && a.createdAt == b.createdAt && a.position == b.position && a.optimize == b.optimize
  }

  ghost predicate SameLine(a: Line, b: Line)
    reads a`createdAt, a`p1, a`p2, a`directionEnabled, a`directionVector, a`directionAccuracy
    reads b`createdAt, b`p1, b`p2, b`directionEnabled, b`directionVector, b`directionAccuracy
  {
    a.createdAt == b.createdAt && a.p1 == b.p1 && a.p2 == b.p2 && a.directionEnabled == b.directionEnabled &&
    a.directionVector == b.directionVector && a.directionAccuracy == b.directionAccuracy
  }

  ghost predicate SameMapping(a: CameraPhotoMapping, b: CameraPhotoMapping)
    reads a`createdAt, a`pointKey, a`position, a`projectedPos, a`sr, a`suggested
    reads b`createdAt, b`pointKey, b`position, b`projectedPos, b`sr, b`suggested
  {
    a.createdAt == b.createdAt && a.pointKey == b.pointKey && a.position == b.position &&
    a.projectedPos == b.projectedPos && a.sr == b.sr && a.suggested == b.suggested
  }

  ghost predicate SameRangefinderMeasurement(a: RangefinderMeasurement, b: RangefinderMeasurement)
    reads a`createdAt, a`p1, a`p2, a`measuredDistance, b`createdAt, b`p1, b`p2, b`measuredDistance
  {
    a.createdAt == b.createdAt && a.p1 == b.p1 && a.p2 == b.p2 && a.measuredDistance == b.measuredDistance
  }

  ghost predicate SameTripodMeasurement(a: TripodMeasurement, b: TripodMeasurement)
    reads a`createdAt, a`pointKey, a`measuredDistance, b`createdAt, b`pointKey, b`measuredDistance
  {
    a.createdAt == b.createdAt && a.pointKey == b.pointKey && a.measuredDistance == b.measuredDistance
  }

  /** Equality of data, children included, between the entities of a tree
      and their copies: the same keys and, under every key, the same data. */
  ghost predicate SamePoints(x: map<string, Point>, y: map<string, Point>)
    reads x.Values`name, x.Values`createdAt, x.Values`position, x.Values`optimize
    reads y.Values`name, y.Values`createdAt, y.Values`position, y.Values`optimize
  {
    x.Keys == y.Keys && forall k :: k in x ==> SamePoint(x[k], y[k])
  }

  ghost predicate SameLines(x: map<string, Line>, y: map<string, Line>)
    reads x.Values`createdAt, x.Values`p1, x.Values`p2, x.Values`directionEnabled
    reads x.Values`directionVector, x.Values`directionAccuracy
    reads y.Values`createdAt, y.Values`p1, y.Values`p2, y.Values`directionEnabled
    reads y.Values`directionVector, y.Values`directionAccuracy
  {
    x.Keys == y.Keys && forall k :: k in x ==> SameLine(x[k], y[k])
  }

  ghost predicate SameMappings(x: map<string, CameraPhotoMapping>, y: map<string, CameraPhotoMapping>)
    reads x.Values`createdAt, x.Values`pointKey, x.Values`position, x.Values`projectedPos
    reads x.Values`sr, x.Values`suggested
    reads y.Values`createdAt, y.Values`pointKey, y.Values`position, y.Values`projectedPos
    reads y.Values`sr, y.Values`suggested
  {
    x.Keys == y.Keys && forall k :: k in x ==> SameMapping(x[k], y[k])
  }

  /** Every mapping of copies is a copy of the mapping of originals under
      the same key, and is restored as a child of parent. */
  ghost predicate MappingCopies(copies: map<string, CameraPhotoMapping>,
                                originals: map<string, CameraPhotoMapping>, parent: CameraPhoto)
    reads copies.Values`createdAt, copies.Values`pointKey, copies.Values`position, copies.Values`projectedPos
    reads copies.Values`sr, copies.Values`suggested, copies.Values`key, copies.Values`photo
    reads originals.Values`createdAt, originals.Values`pointKey, originals.Values`position
    reads originals.Values`projectedPos, originals.Values`sr, originals.Values`suggested
  {
    forall k :: k in copies ==>
      k in originals && SameMapping(copies[k], originals[k]) && copies[k].key == k && copies[k].photo == parent
  }

  lemma MappingCopiesInsert(copies: map<string, CameraPhotoMapping>, originals: map<string, CameraPhotoMapping>,
                            parent: CameraPhoto, k: string, m: CameraPhotoMapping)
    requires MappingCopies(copies, originals, parent) && k in originals
    requires SameMapping(m, originals[k]) && m.key == k && m.photo == parent
    ensures MappingCopies(copies[k := m], originals, parent)
  {
  }

  /** All mappings of the given photos. */
  ghost function MappingsOf(ps: set<CameraPhoto>): (r: set<CameraPhotoMapping>)
    reads ps`mappings
    ensures forall p :: p in ps ==> p.mappings.Values <= r
  {
    set p, m | p in ps && m in p.mappings.Values :: m
  }

  /** All photos of the given cameras. */
  ghost function PhotosOf(cs: set<Camera>): (r: set<CameraPhoto>)
    reads cs`photos
    ensures forall c :: c in cs ==> c.photos.Values <= r
  {
    set c, p | c in cs && p in c.photos.Values :: p
  }

  ghost predicate SamePhoto(a: CameraPhoto, b: CameraPhoto)
    reads a`createdAt, a`imageSize, a`position, a`orientation, a`mappings
    reads b`createdAt, b`imageSize, b`position, b`orientation, b`mappings
    reads a.mappings.Values`createdAt, a.mappings.Values`pointKey, a.mappings.Values`position
    reads a.mappings.Values`projectedPos, a.mappings.Values`sr, a.mappings.Values`suggested
    reads b.mappings.Values`createdAt, b.mappings.Values`pointKey, b.mappings.Values`position
    reads b.mappings.Values`projectedPos, b.mappings.Values`sr, b.mappings.Values`suggested
  {
    a.createdAt == b.createdAt && a.imageSize == b.imageSize && a.position == b.position &&
    a.orientation == b.orientation && SameMappings(a.mappings, b.mappings)
  }

  ghost predicate SamePhotos(x: map<string, CameraPhoto>, y: map<string, CameraPhoto>)
    reads x.Values`createdAt, x.Values`imageSize, x.Values`position, x.Values`orientation, x.Values`mappings
    reads y.Values`createdAt, y.Values`imageSize, y.Values`position, y.Values`orientation, y.Values`mappings
    reads MappingsOf(x.Values)`createdAt, MappingsOf(x.Values)`pointKey, MappingsOf(x.Values)`position
    reads MappingsOf(x.Values)`projectedPos, MappingsOf(x.Values)`sr, MappingsOf(x.Values)`suggested
    reads MappingsOf(y.Values)`createdAt, MappingsOf(y.Values)`pointKey, MappingsOf(y.Values)`position
    reads MappingsOf(y.Values)`projectedPos, MappingsOf(y.Values)`sr, MappingsOf(y.Values)`suggested
  {
    x.Keys == y.Keys && forall k :: k in x ==> SamePhoto(x[k], y[k])
  }

  ghost predicate SameRangefinderMeasurements(x: map<string, RangefinderMeasurement>,
                                              y: map<string, RangefinderMeasurement>)
    reads x.Values`createdAt, x.Values`p1, x.Values`p2, x.Values`measuredDistance
    reads y.Values`createdAt, y.Values`p1, y.Values`p2, y.Values`measuredDistance
  {
    x.Keys == y.Keys && forall k :: k in x ==> SameRangefinderMeasurement(x[k], y[k])
  }

  ghost predicate SameTripodMeasurements(x: map<string, TripodMeasurement>, y: map<string, TripodMeasurement>)
    reads x.Values`createdAt, x.Values`pointKey, x.Values`measuredDistance
    reads y.Values`createdAt, y.Values`pointKey, y.Values`measuredDistance
  {
    x.Keys == y.Keys && forall k :: k in x ==> SameTripodMeasurement(x[k], y[k])
  }

  /** Every photo of copies is a restored copy of the photo of originals
      under the same key. */
  ghost predicate PhotoCopies(copies: map<string, CameraPhoto>, originals: map<string, CameraPhoto>)
    reads copies.Values`createdAt, copies.Values`imageSize, copies.Values`position
    reads copies.Values`orientation, copies.Values`mappings
    reads originals.Values`createdAt, originals.Values`imageSize, originals.Values`position
    reads originals.Values`orientation, originals.Values`mappings
    reads MappingsOf(copies.Values), MappingsOf(originals.Values)
  {
    forall k :: k in copies ==>
      k in originals && SamePhoto(copies[k], originals[k]) && copies[k].MappingsRestored()
  }

  lemma PhotoCopiesInsert(copies: map<string, CameraPhoto>, originals: map<string, CameraPhoto>,
                          k: string, p: CameraPhoto)
    requires PhotoCopies(copies, originals) && k in originals
    requires SamePhoto(p, originals[k]) && p.MappingsRestored()
    ensures PhotoCopies(copies[k := p], originals)
  {
  }

  ghost predicate SameCamera(a: Camera, b: Camera)
    reads a`name, a`createdAt, a`angAccuracy, a`longSideAov, a`longSideAovLocked
    reads a`distortionImageCenter, a`distortionImageCenterLocked, a`distortionKs, a`distortionKsLocked, a`photos
    reads b`name, b`createdAt, b`angAccuracy, b`longSideAov, b`longSideAovLocked
    reads b`distortionImageCenter, b`distortionImageCenterLocked, b`distortionKs, b`distortionKsLocked, b`photos
    reads a.photos.Values`createdAt, a.photos.Values`imageSize, a.photos.Values`position
    reads a.photos.Values`orientation, a.photos.Values`mappings
    reads b.photos.Values`createdAt, b.photos.Values`imageSize, b.photos.Values`position
    reads b.photos.Values`orientation, b.photos.Values`mappings
    reads MappingsOf(a.photos.Values)`createdAt, MappingsOf(a.photos.Values)`pointKey
    reads MappingsOf(a.photos.Values)`position, MappingsOf(a.photos.Values)`projectedPos
    reads MappingsOf(a.photos.Values)`sr, MappingsOf(a.photos.Values)`suggested
    reads MappingsOf(b.photos.Values)`createdAt, MappingsOf(b.photos.Values)`pointKey
    reads MappingsOf(b.photos.Values)`position, MappingsOf(b.photos.Values)`projectedPos
    reads MappingsOf(b.photos.Values)`sr, MappingsOf(b.photos.Values)`suggested
  {
    a.name == b.name && a.createdAt == b.createdAt && a.angAccuracy == b.angAccuracy &&
    a.longSideAov == b.longSideAov && a.longSideAovLocked == b.longSideAovLocked &&
    a.distortionImageCenter == b.distortionImageCenter &&
    a.distortionImageCenterLocked == b.distortionImageCenterLocked &&
    a.distortionKs == b.distortionKs && a.distortionKsLocked == b.distortionKsLocked &&
    SamePhotos(a.photos, b.photos)
  }

  ghost predicate SameRangefinder(a: Rangefinder, b: Rangefinder)
    reads a`name, a`createdAt, a`accuracy, a`measurements, b`name, b`createdAt, b`accuracy, b`measurements
    reads a.measurements.Values`createdAt, a.measurements.Values`p1, a.measurements.Values`p2
    reads a.measurements.Values`measuredDistance
    reads b.measurements.Values`createdAt, b.measurements.Values`p1, b.measurements.Values`p2
    reads b.measurements.Values`measuredDistance
  {
    a.name == b.name && a.createdAt == b.createdAt && a.accuracy == b.accuracy &&
    SameRangefinderMeasurements(a.measurements, b.measurements)
  }

  ghost predicate SameTripod(a: Tripod, b: Tripod)
    reads a`name, a`createdAt, a`position, a`accuracy, a`offset, a`offsetSide, a`offsetLock
    reads a`offsetSideLock, a`measurements
    reads b`name, b`createdAt, b`position, b`accuracy, b`offset, b`offsetSide, b`offsetLock
    reads b`offsetSideLock, b`measurements
    reads a.measurements.Values`createdAt, a.measurements.Values`pointKey, a.measurements.Values`measuredDistance
    reads b.measurements.Values`createdAt, b.measurements.Values`pointKey, b.measurements.Values`measuredDistance
  {
    a.name == b.name && a.createdAt == b.createdAt && a.position == b.position && a.accuracy == b.accuracy &&
    a.offset == b.offset && a.offsetSide == b.offsetSide && a.offsetLock == b.offsetLock &&
    a.offsetSideLock == b.offsetSideLock && SameTripodMeasurements(a.measurements, b.measurements)
  }

  /** Every camera of copies is a deep copy of the camera of originals
      under the same key. */
  ghost predicate CameraCopies(copies: map<string, Camera>, originals: map<string, Camera>)
    reads copies.Values`name, copies.Values`createdAt, copies.Values`angAccuracy, copies.Values`longSideAov
    reads copies.Values`longSideAovLocked, copies.Values`distortionImageCenter
    reads copies.Values`distortionImageCenterLocked, copies.Values`distortionKs
    reads copies.Values`distortionKsLocked, copies.Values`photos
    reads originals.Values`name, originals.Values`createdAt, originals.Values`angAccuracy
    reads originals.Values`longSideAov, originals.Values`longSideAovLocked
    reads originals.Values`distortionImageCenter, originals.Values`distortionImageCenterLocked
    reads originals.Values`distortionKs, originals.Values`distortionKsLocked, originals.Values`photos
    reads PhotosOf(copies.Values), PhotosOf(originals.Values)
    reads MappingsOf(PhotosOf(copies.Values)), MappingsOf(PhotosOf(originals.Values))
  {
    forall k :: k in copies ==>
      k in originals && SameCamera(copies[k], originals[k])
  }

  /** Everything a CameraCopies fact reads is allocated, so that it is
      kept across a call that only allocates or writes elsewhere. */
  lemma CameraTreeAllocated(m: map<string, Camera>)
    ensures forall o :: o in m.Values ==> allocated(o)
    ensures forall o :: o in PhotosOf(m.Values) ==> allocated(o)
    ensures forall o :: o in MappingsOf(PhotosOf(m.Values)) ==> allocated(o)
  {
  }

  /** Adding a deep copy under its own key keeps CameraCopies. The
      hypotheses sit in the ensures, so that a caller pays for the deep
      camera predicates once rather than once per conjunct of a requires. */
  lemma CameraCopiesInsert(copies: map<string, Camera>, originals: map<string, Camera>, k: string, c: Camera)
    requires k in originals
    ensures CameraCopies(copies, originals) && SameCamera(c, originals[k]) ==> CameraCopies(copies[k := c], originals)
  {
  }

  /** All measurements of the given rangefinders. */
  ghost function RangefinderMeasurementsOf(rs: set<Rangefinder>): (r: set<RangefinderMeasurement>)
    reads rs`measurements
    ensures forall x :: x in rs ==> x.measurements.Values <= r
  {
    set x, m | x in rs && m in x.measurements.Values :: m
  }

  /** Every rangefinder of copies is a copy of the rangefinder of
      originals under the same key, with its measurements restored. */
  ghost predicate RangefinderCopies(copies: map<string, Rangefinder>, originals: map<string, Rangefinder>)
    reads copies.Values`name, copies.Values`createdAt, copies.Values`accuracy, copies.Values`measurements
    reads originals.Values`name, originals.Values`createdAt, originals.Values`accuracy
    reads originals.Values`measurements
    reads RangefinderMeasurementsOf(copies.Values), RangefinderMeasurementsOf(originals.Values)
  {
    forall k :: k in copies ==>
      k in originals && SameRangefinder(copies[k], originals[k]) && copies[k].MeasurementsRestored()
  }

  /** Everything a PhotoCopies fact reads is allocated. */
  lemma PhotoTreeAllocated(m: map<string, CameraPhoto>)
    ensures forall o :: o in m.Values ==> allocated(o)
    ensures forall o :: o in MappingsOf(m.Values) ==> allocated(o)
  {
  }

  /** Everything a RangefinderCopies fact reads is allocated. */
  lemma RangefinderTreeAllocated(m: map<string, Rangefinder>)
    ensures forall o :: o in m.Values ==> allocated(o)
    ensures forall o :: o in RangefinderMeasurementsOf(m.Values) ==> allocated(o)
  {
  }

  lemma RangefinderCopiesInsert(copies: map<string, Rangefinder>, originals: map<string, Rangefinder>,
                                k: string, r: Rangefinder)
    requires RangefinderCopies(copies, originals) && k in originals
    requires SameRangefinder(r, originals[k]) && r.MeasurementsRestored()
    ensures RangefinderCopies(copies[k := r], originals)
  {
  }

  /** All measurements of the given tripods. */
  ghost function TripodMeasurementsOf(ts: set<Tripod>): (r: set<TripodMeasurement>)
    reads ts`measurements
    ensures forall t :: t in ts ==> t.measurements.Values <= r
  {
    set t, m | t in ts && m in t.measurements.Values :: m
  }

  /** Every tripod of copies is a copy of the tripod of originals under
      the same key, with its measurements restored. */
  ghost predicate TripodCopies(copies: map<string, Tripod>, originals: map<string, Tripod>)
    reads copies.Values`name, copies.Values`createdAt, copies.Values`position, copies.Values`accuracy
    reads copies.Values`offset, copies.Values`offsetSide, copies.Values`offsetLock
    reads copies.Values`offsetSideLock, copies.Values`measurements
    reads originals.Values`name, originals.Values`createdAt, originals.Values`position
    reads originals.Values`accuracy, originals.Values`offset, originals.Values`offsetSide
    reads originals.Values`offsetLock, originals.Values`offsetSideLock, originals.Values`measurements
    reads TripodMeasurementsOf(copies.Values), TripodMeasurementsOf(originals.Values)
  {
    forall k :: k in copies ==>
      k in originals && SameTripod(copies[k], originals[k]) && copies[k].MeasurementsRestored()
  }

  lemma TripodCopiesInsert(copies: map<string, Tripod>, originals: map<string, Tripod>, k: string, t: Tripod)
    requires TripodCopies(copies, originals) && k in originals
    requires SameTripod(t, originals[k]) && t.MeasurementsRestored()
    ensures TripodCopies(copies[k := t], originals)
  {
  }

  /** The creation time of every entity of the map, by key: what the
      `*Sorted` methods sort by. */
  function PointStamps(m: map<string, Point>): (r: map<string, int>)
    reads m.Values`createdAt
    ensures r.Keys == m.Keys && forall k :: k in m ==> r[k] == m[k].createdAt
  {
    map k | k in m :: m[k].createdAt
  }

  function LineStamps(m: map<string, Line>): (r: map<string, int>)
    reads m.Values`createdAt
    ensures r.Keys == m.Keys && forall k :: k in m ==> r[k] == m[k].createdAt
  {
    map k | k in m :: m[k].createdAt
  }

  function CameraStamps(m: map<string, Camera>): (r: map<string, int>)
    reads m.Values`createdAt
    ensures r.Keys == m.Keys && forall k :: k in m ==> r[k] == m[k].createdAt
  {
    map k | k in m :: m[k].createdAt
  }

  function RangefinderStamps(m: map<string, Rangefinder>): (r: map<string, int>)
    reads m.Values`createdAt
    ensures r.Keys == m.Keys && forall k :: k in m ==> r[k] == m[k].createdAt
  {
    map k | k in m :: m[k].createdAt
  }

  function TripodStamps(m: map<string, Tripod>): (r: map<string, int>)
    reads m.Values`createdAt
    ensures r.Keys == m.Keys && forall k :: k in m ==> r[k] == m[k].createdAt
  {
    map k | k in m :: m[k].createdAt
  }

  function PhotoStamps(m: map<string, CameraPhoto>): (r: map<string, int>)
    reads m.Values`createdAt
    ensures r.Keys == m.Keys && forall k :: k in m ==> r[k] == m[k].createdAt
  {
    map k | k in m :: m[k].createdAt
  }

  function RangefinderMeasurementStamps(m: map<string, RangefinderMeasurement>): (r: map<string, int>)
    reads m.Values`createdAt
    ensures r.Keys == m.Keys && forall k :: k in m ==> r[k] == m[k].createdAt
  {
    map k | k in m :: m[k].createdAt
  }

  function TripodMeasurementStamps(m: map<string, TripodMeasurement>): (r: map<string, int>)
    reads m.Values`createdAt
    ensures r.Keys == m.Keys && forall k :: k in m ==> r[k] == m[k].createdAt
  {
    map k | k in m :: m[k].createdAt
  }

  // ---------------------------------------------------------------- Site

  /** site.go: the root container of everything measured at a site. */
  class Site {
    /** Whether the site has an identifier generator; copies have none. */
    var hasIdGen: bool
    var name: string
    var points: map<string, Point>
    var lines: map<string, Line>
    var cameras: map<string, Camera>
    var rangefinders: map<string, Rangefinder>
    var tripods: map<string, Tripod>

    /** NewSite: a named site with an identifier generator and no
        entities. */
    constructor (name: string)
      ensures hasIdGen && this.name == name
      ensures points == map[] && lines == map[] && cameras == map[]
      ensures rangefinders == map[] && tripods == map[]
    {
      hasIdGen := true;
      this.name := name;
      points, lines, cameras, rangefinders, tripods := map[], map[], map[], map[], map[];
    }

    /** The structure literal of Site.Copy: a named site without an
        identifier generator and with empty entity maps. */
    constructor Blank(name: string)
      ensures !hasIdGen && this.name == name
      ensures points == map[] && lines == map[] && cameras == map[]
      ensures rangefinders == map[] && tripods == map[]
    {
      hasIdGen := false;
      this.name := name;
      points, lines, cameras, rangefinders, tripods := map[], map[], map[], map[], map[];
    }

    /** Registers a new point under a freshly generated key. */
    method NewPoint(name: string, key: string, now: int) returns (p: Point)
      requires hasIdGen && key !in points
      modifies this`points
      ensures fresh(p) && points == old(points)[key := p]
      ensures p.site == this && p.key == key && p.name == name && p.createdAt == now
      ensures p.position == Origin && !p.optimize
    {
      p := new Point(this, key, name, now, Origin, false);
      points := points[key := p];
    }

    /** Registers a new line under a freshly generated key. */
    method NewLine(key: string, now: int) returns (l: Line)
      requires hasIdGen && key !in lines
      modifies this`lines
      ensures fresh(l) && lines == old(lines)[key := l]
      ensures l.site == this && l.key == key && l.createdAt == now
      ensures l.p1 == "" && l.p2 == "" && !l.directionEnabled
      ensures l.directionVector == Coordinate(0.0, 0.0, 1.0) && l.directionAccuracy == Angles.Pi / 180.0
    {
      l := new Line();
      l.InitData(now);
      l.InitReferences(this, key);
    }

    /** Registers a new camera under a freshly generated key, with the
        default accuracy and angle of view and with the image centre and
        both distortion coefficients locked. */
    method NewCamera(name: string, key: string, now: int) returns (c: Camera)
      requires hasIdGen && key !in cameras
      modifies this`cameras
      ensures fresh(c) && cameras == old(cameras)[key := c]
      ensures c.site == this && c.key == key && c.name == name && c.createdAt == now
      ensures c.angAccuracy == 0.2 && c.longSideAov == 1.2 && !c.longSideAovLocked
      ensures c.distortionImageCenter == PixelCoordinates.Zero && c.distortionImageCenterLocked
      ensures c.distortionKs == Pair(0.0, 0.0) && c.distortionKsLocked == Pair(true, true)
      ensures c.photos == map[]
    {
      c := new Camera(this, key, name, now, 0.2, 1.2, false, PixelCoordinates.Zero, true,
                      Pair(0.0, 0.0), Pair(true, true), map[]);
      cameras := cameras[key := c];
    }

    /** Registers a new rangefinder under a freshly generated key. */
    method NewRangefinder(name: string, key: string, now: int) returns (r: Rangefinder)
      requires hasIdGen && key !in rangefinders
      modifies this`rangefinders
      ensures fresh(r) && rangefinders == old(rangefinders)[key := r]
      ensures r.site == this && r.key == key && r.name == name && r.createdAt == now
      ensures r.accuracy == 0.01 && r.measurements == map[]
    {
      r := new Rangefinder(this, key, name, now, 0.01, map[]);
      rangefinders := rangefinders[key := r];
    }

    /** Registers a new tripod under a freshly generated key, with zero
        offsets that may be optimized. */
    method NewTripod(name: string, key: string, now: int) returns (t: Tripod)
      requires hasIdGen && key !in tripods
      modifies this`tripods
      ensures fresh(t) && tripods == old(tripods)[key := t]
      ensures t.site == this && t.key == key && t.name == name && t.createdAt == now
      ensures t.position == Origin && t.accuracy == 0.01
      ensures t.offset == 0.0 && t.offsetSide == 0.0 && !t.offsetLock && !t.offsetSideLock
      ensures t.measurements == map[]
    {
      t := new Tripod(this, key, name, now, Origin, 0.01, 0.0, 0.0, false, false, map[]);
      tripods := tripods[key := t];
    }

    /** Every child is stored under its own key and refers back to this
        site. */
    ghost predicate PointsRestored()
      reads this`points, points.Values`key, points.Values`site
    {
      forall k :: k in points ==> points[k].key == k && points[k].site == this
    }

    ghost predicate LinesRestored()
      reads this`lines, lines.Values`key, lines.Values`site
    {
      forall k :: k in lines ==> lines[k].key == k && lines[k].site == this
    }

    ghost predicate CamerasRestored()
      reads this`cameras, cameras.Values`key, cameras.Values`site
    {
      forall k :: k in cameras ==> cameras[k].key == k && cameras[k].site == this
    }

    ghost predicate RangefindersRestored()
      reads this`rangefinders, rangefinders.Values`key, rangefinders.Values`site
    {
      forall k :: k in rangefinders ==> rangefinders[k].key == k && rangefinders[k].site == this
    }

    ghost predicate TripodsRestored()
      reads this`tripods, tripods.Values`key, tripods.Values`site
    {
      forall k :: k in tripods ==> tripods[k].key == k && tripods[k].site == this
    }

    ghost predicate ChildrenRestored()
      reads this`points, points.Values`key, points.Values`site, this`lines, lines.Values`key, lines.Values`site
      reads this`cameras, cameras.Values`key, cameras.Values`site
      reads this`rangefinders, rangefinders.Values`key, rangefinders.Values`site
      reads this`tripods, tripods.Values`key, tripods.Values`site
    {
      PointsRestored() && LinesRestored() && CamerasRestored() && RangefindersRestored() && TripodsRestored()
    }

    /** Sets the key and the site reference of every child, one kind of
        child after the other. When two keys share one object, the key
        written last wins; with no shared objects every child ends up
        restored.  */
    method RestoreChildrenRefs()
      modifies points.Values`key, points.Values`site, lines.Values`key, lines.Values`site
      modifies cameras.Values`key, cameras.Values`site, rangefinders.Values`key, rangefinders.Values`site
      modifies tripods.Values`key, tripods.Values`site
      ensures (Distinct(points) && Distinct(lines) && Distinct(cameras) && Distinct(rangefinders) &&
               Distinct(tripods)) ==> ChildrenRestored()
    {
      RestorePointsAndLines();
      RestoreDevices();
    }

    /** The first two loops of RestoreChildrenRefs. */
    method RestorePointsAndLines()
      modifies points.Values`key, points.Values`site, lines.Values`key, lines.Values`site
      ensures Distinct(points) ==> PointsRestored()
      ensures Distinct(lines) ==> LinesRestored()
    {
      RestorePoints();
      RestoreLines();
    }

    /** The last three loops of RestoreChildrenRefs. */
    method RestoreDevices()
      modifies cameras.Values`key, cameras.Values`site, rangefinders.Values`key, rangefinders.Values`site
      modifies tripods.Values`key, tripods.Values`site
      ensures Distinct(cameras) ==> CamerasRestored()
      ensures Distinct(rangefinders) ==> RangefindersRestored()
      ensures Distinct(tripods) ==> TripodsRestored()
    {
      RestoreCameras();
      RestoreInstruments();
    }

    /** The last two loops of RestoreChildrenRefs. */
    method RestoreInstruments()
      modifies rangefinders.Values`key, rangefinders.Values`site, tripods.Values`key, tripods.Values`site
      ensures Distinct(rangefinders) ==> RangefindersRestored()
      ensures Distinct(tripods) ==> TripodsRestored()
    {
      RestoreRangefinders();
      RestoreTripods();
    }

    /** The first loop of RestoreChildrenRefs: the points. */
    method RestorePoints()
      modifies points.Values`key, points.Values`site
      ensures Distinct(points) ==> PointsRestored()
    {
      var todo := points.Keys;
      while todo != {}
        invariant todo <= points.Keys
        invariant forall k :: k in points.Keys - todo ==>
                    points[k].site == this && points[k].key in points.Keys - todo && points[points[k].key] == points[k]
        decreases |todo|
      {
        var k :| k in todo;
        points[k].key, points[k].site := k, this;
        todo := todo - {k};
      }
    }

    /** The second loop of RestoreChildrenRefs: the lines. */
    method RestoreLines()
      modifies lines.Values`key, lines.Values`site
      ensures Distinct(lines) ==> LinesRestored()
    {
      var todo := lines.Keys;
      while todo != {}
        invariant todo <= lines.Keys
        invariant forall k :: k in lines.Keys - todo ==>
                    lines[k].site == this && lines[k].key in lines.Keys - todo && lines[lines[k].key] == lines[k]
        decreases |todo|
      {
        var k :| k in todo;
        lines[k].key, lines[k].site := k, this;
        todo := todo - {k};
      }
    }

    /** The third loop of RestoreChildrenRefs: the cameras. */
    method RestoreCameras()
      modifies cameras.Values`key, cameras.Values`site
      ensures Distinct(cameras) ==> CamerasRestored()
    {
      var todo := cameras.Keys;
      while todo != {}
        invariant todo <= cameras.Keys
        invariant forall k :: k in cameras.Keys - todo ==>
                    cameras[k].site == this && cameras[k].key in cameras.Keys - todo && cameras[cameras[k].key] == cameras[k]
        decreases |todo|
      {
        var k :| k in todo;
        cameras[k].key, cameras[k].site := k, this;
        todo := todo - {k};
      }
    }

    /** The fourth loop of RestoreChildrenRefs: the rangefinders. */
    method RestoreRangefinders()
      modifies rangefinders.Values`key, rangefinders.Values`site
      ensures Distinct(rangefinders) ==> RangefindersRestored()
    {
      var todo := rangefinders.Keys;
      while todo != {}
        invariant todo <= rangefinders.Keys
        invariant forall k :: k in rangefinders.Keys - todo ==>
                    rangefinders[k].site == this && rangefinders[k].key in rangefinders.Keys - todo && rangefinders[rangefinders[k].key] == rangefinders[k]
        decreases |todo|
      {
        var k :| k in todo;
        rangefinders[k].key, rangefinders[k].site := k, this;
        todo := todo - {k};
      }
    }

    /** The fifth loop of RestoreChildrenRefs: the tripods. */
    method RestoreTripods()
      modifies tripods.Values`key, tripods.Values`site
      ensures Distinct(tripods) ==> TripodsRestored()
    {
      var todo := tripods.Keys;
      while todo != {}
        invariant todo <= tripods.Keys
        invariant forall k :: k in tripods.Keys - todo ==>
                    tripods[k].site == this && tripods[k].key in tripods.Keys - todo && tripods[tripods[k].key] == tripods[k]
        decreases |todo|
      {
        var k :| k in todo;
        tripods[k].key, tripods[k].site := k, this;
        todo := todo - {k};
      }
    }

    /** A copy of the site without an identifier generator: every entity
        is copied under its key into a fresh object, and every copy is
        restored as a child of the new site. */
    method Copy(now: int) returns (c: Site)
      ensures fresh(c) && !c.hasIdGen && c.name == name
      ensures fresh(c.points.Values) && c.points.Keys == points.Keys
      ensures fresh(c.lines.Values) && c.lines.Keys == lines.Keys
      ensures fresh(c.cameras.Values) && c.cameras.Keys == cameras.Keys
      ensures fresh(c.rangefinders.Values) && c.rangefinders.Keys == rangefinders.Keys
      ensures fresh(c.tripods.Values) && c.tripods.Keys == tripods.Keys
      ensures c.ChildrenRestored()
    {
      c := CopyChildren(now);
      c.RestoreChildrenRefs();
    }

    /** The copying loops of Copy, before the references are restored. */
    method CopyChildren(now: int) returns (c: Site)
      ensures fresh(c) && !c.hasIdGen && c.name == name
      ensures fresh(c.points.Values) && Distinct(c.points) && SamePoints(c.points, points)
      ensures fresh(c.lines.Values) && Distinct(c.lines) && SameLines(c.lines, lines)
      ensures fresh(c.cameras.Values) && Distinct(c.cameras) && c.cameras.Keys == cameras.Keys
      ensures fresh(c.rangefinders.Values) && Distinct(c.rangefinders) && c.rangefinders.Keys == rangefinders.Keys
      ensures fresh(c.tripods.Values) && Distinct(c.tripods) && c.tripods.Keys == tripods.Keys
    {
      c := CopyPointsAndLines(now);
      CopyDevicesInto(c, now);
    }

    /** The points and lines loops of Copy, into a new site. */
    method CopyPointsAndLines(now: int) returns (c: Site)
      ensures fresh(c) && !c.hasIdGen && c.name == name
      ensures fresh(c.points.Values) && Distinct(c.points) && SamePoints(c.points, points)
      ensures fresh(c.lines.Values) && Distinct(c.lines) && SameLines(c.lines, lines)
      ensures c.cameras == map[] && c.rangefinders == map[] && c.tripods == map[]
    {
      c := new Site.Blank(name);
      var copiedPoints := CopyPoints();
      c.points := copiedPoints;
      CopyLinesInto(c, now);
    }

    /** Installs copies of the cameras, rangefinders and tripods in c. */
    method CopyDevicesInto(c: Site, now: int)
      modifies c`cameras, c`rangefinders, c`tripods
      ensures fresh(c.cameras.Values) && Distinct(c.cameras) && c.cameras.Keys == cameras.Keys
      ensures fresh(c.rangefinders.Values) && Distinct(c.rangefinders) && c.rangefinders.Keys == rangefinders.Keys
      ensures fresh(c.tripods.Values) && Distinct(c.tripods) && c.tripods.Keys == tripods.Keys
    {
      var cs, rs, ts := CopyDevices(now);
      c.cameras, c.rangefinders, c.tripods := cs, rs, ts;
    }

    /** The cameras, rangefinders and tripods loops of Copy: every copy
        holds the data of the device it copies, with its photos, mappings
        and measurements copied too. */
    method CopyDevices(now: int) returns (cs: map<string, Camera>, rs: map<string, Rangefinder>,
                                          ts: map<string, Tripod>)
      ensures fresh(cs.Values) && Distinct(cs) && cs.Keys == cameras.Keys && CameraCopies(cs, cameras)
      ensures fresh(rs.Values) && Distinct(rs) && rs.Keys == rangefinders.Keys && RangefinderCopies(rs, rangefinders)
      ensures fresh(ts.Values) && Distinct(ts) && ts.Keys == tripods.Keys && TripodCopies(ts, tripods)
    {
      cs := CopyCameras(now);
      CameraTreeAllocated(cs);
      CameraTreeAllocated(cameras);
      rs, ts := CopyMeasuringDevices();
    }

    /** The rangefinders and tripods loops of Copy. */
    method CopyMeasuringDevices() returns (rs: map<string, Rangefinder>, ts: map<string, Tripod>)
      ensures fresh(rs.Values) && Distinct(rs) && rs.Keys == rangefinders.Keys && RangefinderCopies(rs, rangefinders)
      ensures fresh(ts.Values) && Distinct(ts) && ts.Keys == tripods.Keys && TripodCopies(ts, tripods)
    {
      rs := CopyRangefinders();
      RangefinderTreeAllocated(rs);
      RangefinderTreeAllocated(rangefinders);
      ts := CopyTripods();
    }

    /** The points loop of Copy. */
    method CopyPoints() returns (copies: map<string, Point>)
      ensures fresh(copies.Values) && Distinct(copies) && SamePoints(copies, points)
    {
      copies := map[];
      var todo := points.Keys;
      while todo != {}
        invariant todo <= points.Keys
        invariant copies.Keys == points.Keys - todo
        invariant fresh(copies.Values) && Distinct(copies)
        invariant forall k :: k in copies ==> SamePoint(copies[k], points[k])
        decreases |todo|
      {
        var k :| k in todo;
        var pc := points[k].Copy();
        DistinctInsert(copies, k, pc);
        copies := copies[k := pc];
        todo := todo - {k};
      }
    }

    /** The lines loop of Copy: each line copy registers itself in c. */
    method CopyLinesInto(c: Site, now: int)
      requires c != this && c.lines == map[]
      modifies c`lines
      ensures fresh(c.lines.Values) && Distinct(c.lines) && SameLines(c.lines, lines)
    {
      var todo := lines.Keys;
      while todo != {}
        invariant todo <= lines.Keys
        invariant c.lines.Keys == lines.Keys - todo
        invariant fresh(c.lines.Values) && Distinct(c.lines)
        invariant forall k :: k in c.lines ==> SameLine(c.lines[k], lines[k])
        decreases |todo|
      {
        var k :| k in todo;
        ghost var before := c.lines;
        var lc := lines[k].Copy(c, k, now);
        DistinctInsert(before, k, lc);
        todo := todo - {k};
      }
    }

    /** The cameras loop of Copy. */
    method CopyCameras(now: int) returns (copies: map<string, Camera>)
      ensures fresh(copies.Values) && Distinct(copies) && copies.Keys == cameras.Keys
      ensures CameraCopies(copies, cameras)
    {
      copies := map[];
      var todo := cameras.Keys;
      while todo != {}
        invariant todo <= cameras.Keys
        invariant copies.Keys == cameras.Keys - todo
        invariant fresh(copies.Values) && Distinct(copies)
        invariant CameraCopies(copies, cameras)
        decreases |todo|
      {
        var k :| k in todo;
        copies := AddCameraCopy(copies, k, now);
        todo := todo - {k};
      }
    }

    /** One step of CopyCameras: adds a deep copy of the camera under k. */
    method AddCameraCopy(copies: map<string, Camera>, k: string, now: int) returns (r: map<string, Camera>)
      requires k in cameras && k !in copies && Distinct(copies) && CameraCopies(copies, cameras)
      ensures k in r && r == copies[k := r[k]] && fresh(r[k]) && r.Values == copies.Values + {r[k]}
      ensures Distinct(r) && CameraCopies(r, cameras)
    {
      CameraTreeAllocated(copies);
      CameraTreeAllocated(cameras);
      var cc := cameras[k].Copy(now);
      DistinctInsert(copies, k, cc);
      CameraCopiesInsert(copies, cameras, k, cc);
      r := copies[k := cc];
    }

    /** The rangefinders loop of Copy. */
    method CopyRangefinders() returns (copies: map<string, Rangefinder>)
      ensures fresh(copies.Values) && Distinct(copies) && copies.Keys == rangefinders.Keys
      ensures RangefinderCopies(copies, rangefinders)
    {
      copies := map[];
      var todo := rangefinders.Keys;
      while todo != {}
        invariant todo <= rangefinders.Keys
        invariant copies.Keys == rangefinders.Keys - todo
        invariant fresh(copies.Values) && Distinct(copies)
        invariant RangefinderCopies(copies, rangefinders)
        decreases |todo|
      {
        var k :| k in todo;
        copies := AddRangefinderCopy(copies, k);
        todo := todo - {k};
      }
    }

    /** One step of CopyRangefinders. */
    method AddRangefinderCopy(copies: map<string, Rangefinder>, k: string) returns (r: map<string, Rangefinder>)
      requires k in rangefinders && k !in copies && Distinct(copies) && RangefinderCopies(copies, rangefinders)
      ensures k in r && r == copies[k := r[k]] && fresh(r[k]) && r.Values == copies.Values + {r[k]}
      ensures Distinct(r) && RangefinderCopies(r, rangefinders)
    {
      var rc := rangefinders[k].Copy();
      DistinctInsert(copies, k, rc);
      RangefinderCopiesInsert(copies, rangefinders, k, rc);
      r := copies[k := rc];
    }

    /** The tripods loop of Copy. */
    method CopyTripods() returns (copies: map<string, Tripod>)
      ensures fresh(copies.Values) && Distinct(copies) && copies.Keys == tripods.Keys
      ensures TripodCopies(copies, tripods)
    {
      copies := map[];
      var todo := tripods.Keys;
      while todo != {}
        invariant todo <= tripods.Keys
        invariant copies.Keys == tripods.Keys - todo
        invariant fresh(copies.Values) && Distinct(copies)
        invariant TripodCopies(copies, tripods)
        decreases |todo|
      {
        var k :| k in todo;
        copies := AddTripodCopy(copies, k);
        todo := todo - {k};
      }
    }

    /** One step of CopyTripods. */
    method AddTripodCopy(copies: map<string, Tripod>, k: string) returns (r: map<string, Tripod>)
      requires k in tripods && k !in copies && Distinct(copies) && TripodCopies(copies, tripods)
      ensures k in r && r == copies[k := r[k]] && fresh(r[k]) && r.Values == copies.Values + {r[k]}
      ensures Distinct(r) && TripodCopies(r, tripods)
    {
      var tc := tripods[k].Copy();
      DistinctInsert(copies, k, tc);
      TripodCopiesInsert(copies, tripods, k, tc);
      r := copies[k := tc];
    }

    /** The points, newest first; points created at the same time come in
        any order. keys is the order of their keys. */
    method PointsSorted() returns (r: seq<Point>, ghost keys: seq<string>)
      ensures multiset(keys) == multiset(points.Keys) && NewestFirst(keys, PointStamps(points))
      ensures |r| == |keys| && forall i :: 0 <= i < |r| ==> keys[i] in points && r[i] == points[keys[i]]
      ensures forall i, j :: 0 <= i < j < |r| ==> r[i].createdAt >= r[j].createdAt
    {
      r, keys := SortValues(points, PointStamps(points));
    }

    /** The lines, newest first; lines created at the same time come in
        any order. keys is the order of their keys. */
    method LinesSorted() returns (r: seq<Line>, ghost keys: seq<string>)
      ensures multiset(keys) == multiset(lines.Keys) && NewestFirst(keys, LineStamps(lines))
      ensures |r| == |keys| && forall i :: 0 <= i < |r| ==> keys[i] in lines && r[i] == lines[keys[i]]
      ensures forall i, j :: 0 <= i < j < |r| ==> r[i].createdAt >= r[j].createdAt
    {
      r, keys := SortValues(lines, LineStamps(lines));
    }

    /** The rangefinders, newest first; rangefinders created at the same time come in
        any order. keys is the order of their keys. */
    method RangefindersSorted() returns (r: seq<Rangefinder>, ghost keys: seq<string>)
      ensures multiset(keys) == multiset(rangefinders.Keys) && NewestFirst(keys, RangefinderStamps(rangefinders))
      ensures |r| == |keys| && forall i :: 0 <= i < |r| ==> keys[i] in rangefinders && r[i] == rangefinders[keys[i]]
      ensures forall i, j :: 0 <= i < j < |r| ==> r[i].createdAt >= r[j].createdAt
    {
      r, keys := SortValues(rangefinders, RangefinderStamps(rangefinders));
    }

    /** The cameras, newest first; cameras created at the same time come in
        any order. keys is the order of their keys. */
    method CamerasSorted() returns (r: seq<Camera>, ghost keys: seq<string>)
      ensures multiset(keys) == multiset(cameras.Keys) && NewestFirst(keys, CameraStamps(cameras))
      ensures |r| == |keys| && forall i :: 0 <= i < |r| ==> keys[i] in cameras && r[i] == cameras[keys[i]]
      ensures forall i, j :: 0 <= i < j < |r| ==> r[i].createdAt >= r[j].createdAt
    {
      r, keys := SortValues(cameras, CameraStamps(cameras));
    }

    /** The tripods, newest first; tripods created at the same time come in
        any order. keys is the order of their keys. */
    method TripodsSorted() returns (r: seq<Tripod>, ghost keys: seq<string>)
      ensures multiset(keys) == multiset(tripods.Keys) && NewestFirst(keys, TripodStamps(tripods))
      ensures |r| == |keys| && forall i :: 0 <= i < |r| ==> keys[i] in tripods && r[i] == tripods[keys[i]]
      ensures forall i, j :: 0 <= i < j < |r| ==> r[i].createdAt >= r[j].createdAt
    {
      r, keys := SortValues(tripods, TripodStamps(tripods));
    }
  }

  // ---------------------------------------------------------------- Point

  /** point.go: a point in the world whose position is to be determined. */
  class Point {
    var site: Site?
    var key: string
    var name: string
    var createdAt: int
    var position: Coordinate
    var optimize: bool

    constructor (site: Site?, key: string, name: string, createdAt: int, position: Coordinate, optimize: bool)
      ensures this.site == site && this.key == key && this.name == name
      ensures this.createdAt == createdAt && this.position == position && this.optimize == optimize
    {
      this.site, this.key, this.name := site, key, name;
      this.createdAt, this.position, this.optimize := createdAt, position, optimize;
    }

    function Key(): (r: string)
      reads this`key
      ensures r == key
    {
      key
    }

    /** Removes this point, and nothing else, from its site. Lines and
        measurements that refer to it keep their references. */
    method Delete()
      requires site != null
      modifies site`points
      ensures site.points == old(site.points) - {key}
    {
      site.points := site.points - {Key()};
    }

    /** A copy with the same data, without key and site reference. */
    method Copy() returns (c: Point)
      ensures fresh(c) && SamePoint(c, this)
      ensures c.site == null && c.key == ""
    {
      c := new Point(null, "", name, createdAt, position, optimize);
    }
  }

  // ---------------------------------------------------------------- Line

  /** line.go: a line between two points, optionally constrained to a
      direction. */
  class Line {
    var site: Site?
    var key: string
    var createdAt: int
    var p1: string
    var p2: string
    var directionEnabled: bool
    var directionVector: Coordinate
    var directionAccuracy: real

    /** new(Line): every field has its zero value. */
    constructor ()
      ensures site == null && key == "" && createdAt == 0 && p1 == "" && p2 == ""
      ensures !directionEnabled && directionVector == Origin && directionAccuracy == 0.0
    {
      site, key, createdAt, p1, p2 := null, "", 0, "", "";
      directionEnabled, directionVector, directionAccuracy := false, Origin, 0.0;
    }

    /** Creation time, an upward direction vector and an accuracy of one
        degree. */
    method InitData(now: int)
      modifies this`createdAt, this`directionVector, this`directionAccuracy
      ensures createdAt == now && directionVector == Coordinate(0.0, 0.0, 1.0)
      ensures directionAccuracy == 1.0 * Angles.Pi / 180.0
    {
      createdAt := now;
      directionVector := Coordinate(0.0, 0.0, 1.0);
      directionAccuracy := 1.0 * Angles.Pi / 180.0;
    }

    /** Sets key and site and registers the line in the site under the
        key. */
    method InitReferences(newParent: Site, newKey: string)
      modifies this`site, this`key, newParent`lines
      ensures site == newParent && key == newKey
      ensures newParent.lines == old(newParent.lines)[newKey := this]
    {
      site, key := newParent, newKey;
      site.lines := site.lines[Key() := this];
    }

    function Key(): (r: string)
      reads this`key
      ensures r == key
    {
      key
    }

    /** Removes this line, and nothing else, from its site. */
    method Delete()
      requires site != null
      modifies site`lines
      ensures site.lines == old(site.lines) - {key}
    {
      site.lines := site.lines - {Key()};
    }

    /** A copy with the same data, registered in newParent under newKey.
        The clock reading is overwritten by the copied creation time. */
    method Copy(newParent: Site, newKey: string, now: int) returns (c: Line)
      modifies newParent`lines
      ensures fresh(c) && SameLine(c, this)
      ensures c.site == newParent && c.key == newKey
      ensures newParent.lines == old(newParent.lines)[newKey := c]
    {
      c := new Line();
      c.InitData(now);
      c.InitReferences(newParent, newKey);
      c.createdAt := createdAt;
      c.p1 := p1;
      c.p2 := p2;
      c.directionEnabled := directionEnabled;
      c.directionVector := directionVector;
      c.directionAccuracy := directionAccuracy;
    }
  }

  // ---------------------------------------------------------------- Camera

  /** camera.go: a camera with its lens parameters and its photos. */
  class Camera {
    var site: Site?
    var key: string
    var name: string
    var createdAt: int
    var angAccuracy: real
    var longSideAov: real
    var longSideAovLocked: bool
    var distortionImageCenter: PixelCoordinate
    var distortionImageCenterLocked: bool
    var distortionKs: Pair<real>
    var distortionKsLocked: Pair<bool>
    var photos: map<string, CameraPhoto>

    constructor (site: Site?, key: string, name: string, createdAt: int, angAccuracy: real,
                 longSideAov: real, longSideAovLocked: bool, center: PixelCoordinate, centerLocked: bool,
                 ks: Pair<real>, ksLocked: Pair<bool>, photos: map<string, CameraPhoto>)
      ensures this.site == site && this.key == key && this.name == name && this.createdAt == createdAt
      ensures this.angAccuracy == angAccuracy && this.longSideAov == longSideAov
      ensures this.longSideAovLocked == longSideAovLocked
      ensures distortionImageCenter == center && distortionImageCenterLocked == centerLocked
      ensures distortionKs == ks && distortionKsLocked == ksLocked && this.photos == photos
    {
      this.site, this.key, this.name, this.createdAt := site, key, name, createdAt;
      this.angAccuracy, this.longSideAov, this.longSideAovLocked := angAccuracy, longSideAov, longSideAovLocked;
      distortionImageCenter, distortionImageCenterLocked := center, centerLocked;
      distortionKs, distortionKsLocked, this.photos := ks, ksLocked, photos;
    }

    function Key(): (r: string)
      reads this`key
      ensures r == key
    {
      key
    }

    /** Removes this camera, and nothing else, from its site. */
    method Delete()
      requires site != null
      modifies site`cameras
      ensures site.cameras == old(site.cameras) - {key}
    {
      site.cameras := site.cameras - {Key()};
    }

    /** Every photo is stored under its own key and refers back to this
        camera. */
    ghost predicate PhotosRestored()
      reads this`photos, photos.Values`key, photos.Values`camera
    {
      forall k :: k in photos ==> photos[k].key == k && photos[k].camera == this
    }

    /** The photos are restored, and so are the mappings of every photo. */
    ghost predicate TreeRestored()
      reads this`photos, photos.Values`key, photos.Values`camera, photos.Values`mappings
      reads (set p, m | p in photos.Values && m in p.mappings.Values :: m)`key
      reads (set p, m | p in photos.Values && m in p.mappings.Values :: m)`photo
    {
      PhotosRestored() && forall k :: k in photos ==> photos[k].MappingsRestored()
    }

    /** Sets the key and the camera reference of every photo. When two keys
        share one photo object, the key written last wins. */
    method RestoreChildrenRefs()
      modifies photos.Values`key, photos.Values`camera
      ensures forall k :: k in photos ==> photos[k].camera == this
      ensures Distinct(photos) ==> PhotosRestored()
    {
      var todo := photos.Keys;
      while todo != {}
        invariant todo <= photos.Keys
        invariant forall k :: k in photos.Keys - todo ==> photos[k].camera == this
        invariant forall k :: k in photos.Keys - todo ==>
                    photos[k].key in photos.Keys - todo && photos[photos[k].key] == photos[k]
        decreases |todo|
      {
        var k :| k in todo;
        photos[k].key, photos[k].camera := k, this;
        todo := todo - {k};
      }
    }

    /** A deep copy: the same data, fresh photos and mappings, all of them
        restored, and no key or site reference of its own. */
    method Copy(now: int) returns (c: Camera)
      ensures fresh(c) && SameCamera(c, this)
      ensures c.site == null && c.key == ""
      ensures fresh(c.photos.Values)
      ensures c.TreeRestored()
    {
      var copies := CopyPhotos(now);
      c := new Camera(null, "", name, createdAt, angAccuracy, longSideAov, longSideAovLocked,
                      distortionImageCenter, distortionImageCenterLocked, distortionKs, distortionKsLocked, copies);
      c.RestoreCopiedPhotos(photos);
    }

    /** RestoreChildrenRefs on a camera whose photos are copies of the
        given ones: the copies keep their data. */
    method RestoreCopiedPhotos(ghost originals: map<string, CameraPhoto>)
      requires photos.Keys == originals.Keys && Distinct(photos) && PhotoCopies(photos, originals)
      modifies photos.Values`key, photos.Values`camera
      ensures PhotoCopies(photos, originals) && TreeRestored()
    {
      PhotoTreeAllocated(photos);
      PhotoTreeAllocated(originals);
      RestoreChildrenRefs();
    }

    /** The copying loop of Copy: a deep copy of every photo, under the
        same key. */
    method CopyPhotos(now: int) returns (copies: map<string, CameraPhoto>)
      ensures fresh(copies.Values) && Distinct(copies) && copies.Keys == photos.Keys
      ensures PhotoCopies(copies, photos)
    {
      copies := map[];
      var todo := photos.Keys;
      while todo != {}
        invariant todo <= photos.Keys
        invariant copies.Keys == photos.Keys - todo
        invariant fresh(copies.Values) && Distinct(copies)
        invariant PhotoCopies(copies, photos)
        decreases |todo|
      {
        var k :| k in todo;
        copies := AddPhotoCopy(copies, k, now);
        todo := todo - {k};
      }
    }

    /** One step of CopyPhotos: adds a deep copy of the photo under k. */
    method AddPhotoCopy(copies: map<string, CameraPhoto>, k: string, now: int)
        returns (r: map<string, CameraPhoto>)
      requires k in photos && k !in copies && Distinct(copies) && PhotoCopies(copies, photos)
      ensures k in r && r == copies[k := r[k]] && fresh(r[k]) && r.Values == copies.Values + {r[k]}
      ensures Distinct(r) && PhotoCopies(r, photos)
    {
      var pc := photos[k].Copy(now);
      DistinctInsert(copies, k, pc);
      PhotoCopiesInsert(copies, photos, k, pc);
      r := copies[k := pc];
    }

    /** Registers a new photo of the given decoded image size under a
        freshly generated key; None (and no change) when the image could
        not be decoded. */
    method NewPhoto(decoded: Option<(int, int)>, key: string, now: int) returns (r: Option<CameraPhoto>)
      requires decoded.Some? ==> site != null && site.hasIdGen && key !in photos
      modifies this`photos
      ensures decoded.None? ==> r.None? && photos == old(photos)
      ensures decoded.Some? ==> r.Some? && fresh(r.value) && photos == old(photos)[key := r.value]
      ensures decoded.Some? ==> r.value.camera == this && r.value.key == key && r.value.createdAt == now
      ensures decoded.Some? ==> r.value.imageSize == PixelCoordinate(decoded.value.0 as real, decoded.value.1 as real, 0.0)
      ensures decoded.Some? ==> r.value.position == Origin && r.value.orientation == NoRotation
      ensures decoded.Some? ==> r.value.mappings == map[]
    {
      if decoded.None? {
        return None;
      }
      var (width, height) := decoded.value;
      var cp := new CameraPhoto(this, key, now, PixelCoordinate(width as real, height as real, 0.0),
                                Origin, NoRotation, map[]);
      photos := photos[key := cp];
      r := Some(cp);
    }

    /** The photos, newest first; photos created at the same time come in
        any order. keys is the order of their keys. */
    method PhotosSorted() returns (r: seq<CameraPhoto>, ghost keys: seq<string>)
      ensures multiset(keys) == multiset(photos.Keys) && NewestFirst(keys, PhotoStamps(photos))
      ensures |r| == |keys| && forall i :: 0 <= i < |r| ==> keys[i] in photos && r[i] == photos[keys[i]]
      ensures forall i, j :: 0 <= i < j < |r| ==> r[i].createdAt >= r[j].createdAt
    {
      r, keys := SortValues(photos, PhotoStamps(photos));
    }
  }

  // ---------------------------------------------------------------- CameraPhoto

  /** camera-photo.go: a photo taken by a camera, with its pose and the
      points mapped onto it. */
  class CameraPhoto {
    var camera: Camera?
    var key: string
    var createdAt: int
    var imageSize: PixelCoordinate
    var position: Coordinate
    var orientation: Rotation
    var mappings: map<string, CameraPhotoMapping>

    constructor (camera: Camera?, key: string, createdAt: int, imageSize: PixelCoordinate,
                 position: Coordinate, orientation: Rotation, mappings: map<string, CameraPhotoMapping>)
      ensures this.camera == camera && this.key == key && this.createdAt == createdAt
      ensures this.imageSize == imageSize && this.position == position && this.orientation == orientation
      ensures this.mappings == mappings
    {
      this.camera, this.key, this.createdAt := camera, key, createdAt;
      this.imageSize, this.position, this.orientation, this.mappings := imageSize, position, orientation, mappings;
    }

    function Key(): (r: string)
      reads this`key
      ensures r == key
    {
      key
    }

    /** Removes this photo, and nothing else, from its camera. */
    method Delete()
      requires camera != null
      modifies camera`photos
      ensures camera.photos == old(camera.photos) - {key}
    {
      camera.photos := camera.photos - {Key()};
    }

    /** Every mapping is stored under its own key and refers back to this
        photo. */
    ghost predicate MappingsRestored()
      reads this`mappings, mappings.Values`key, mappings.Values`photo
    {
      forall k :: k in mappings ==> mappings[k].key == k && mappings[k].photo == this
    }

    /** Sets the key and the photo reference of every mapping. */
    method RestoreChildrenRefs()
      modifies mappings.Values`key, mappings.Values`photo
      ensures forall k :: k in mappings ==> mappings[k].photo == this
      ensures Distinct(mappings) ==> MappingsRestored()
    {
      var todo := mappings.Keys;
      while todo != {}
        invariant todo <= mappings.Keys
        invariant forall k :: k in mappings.Keys - todo ==> mappings[k].photo == this
        invariant forall k :: k in mappings.Keys - todo ==>
                    mappings[k].key in mappings.Keys - todo && mappings[mappings[k].key] == mappings[k]
        decreases |todo|
      {
        var k :| k in todo;
        mappings[k].key, mappings[k].photo := k, this;
        todo := todo - {k};
      }
    }

    /** A deep copy: the same data, fresh restored mappings, and no key or
        camera reference of its own. */
    method Copy(now: int) returns (c: CameraPhoto)
      ensures fresh(c) && SamePhoto(c, this)
      ensures c.camera == null && c.key == ""
      ensures fresh(c.mappings.Values) && c.MappingsRestored()
    {
      c := new CameraPhoto(null, "", createdAt, imageSize, position, orientation, map[]);
      CopyMappingsInto(c, now);
      c.RestoreChildrenRefs();
    }

    /** The copying loop of Copy: every mapping copied into the new photo
        under the same key. */
    method CopyMappingsInto(c: CameraPhoto, now: int)
      requires c != this && c.mappings == map[]
      modifies c`mappings
      ensures fresh(c.mappings.Values) && c.mappings.Keys == mappings.Keys
      ensures MappingCopies(c.mappings, mappings, c)
    {
      var todo := mappings.Keys;
      while todo != {}
        invariant todo <= mappings.Keys
        invariant c.mappings.Keys == mappings.Keys - todo
        invariant fresh(c.mappings.Values)
        invariant MappingCopies(c.mappings, mappings, c)
        decreases |todo|
      {
        var k :| k in todo;
        AddMappingCopy(c, k, now);
        todo := todo - {k};
      }
    }

    /** One step of CopyMappingsInto: copies the mapping under k into c. */
    method AddMappingCopy(c: CameraPhoto, k: string, now: int)
      requires c != this && k in mappings && k !in c.mappings && MappingCopies(c.mappings, mappings, c)
      modifies c`mappings
      ensures k in c.mappings && c.mappings == old(c.mappings)[k := c.mappings[k]] && fresh(c.mappings[k])
      ensures c.mappings.Values == old(c.mappings.Values) + {c.mappings[k]}
      ensures MappingCopies(c.mappings, mappings, c)
    {
      ghost var before := c.mappings;
      var mc := mappings[k].Copy(c, k, now);
      MappingCopiesInsert(before, mappings, c, k, mc);
      c.mappings := c.mappings[k := mc];
      ValuesInsert(before, k, mc);
    }

    /** Creates a mapping with the zero value, stamps it and registers it
        under a freshly generated key. */
    method NewMapping(key: string, now: int) returns (m: CameraPhotoMapping)
      requires camera != null && camera.site != null && camera.site.hasIdGen && key !in mappings
      modifies this`mappings
      ensures fresh(m) && mappings == old(mappings)[key := m]
      ensures m.photo == this && m.key == key && m.createdAt == now
      ensures m.pointKey == "" && !m.suggested && m.sr == Fin(0.0)
      ensures m.position == PixelCoordinates.Zero && m.projectedPos == PixelCoordinates.Zero
    {
      m := new CameraPhotoMapping();
      m.InitData(now);
      m.InitReferences(this, key);
    }
  }

  // ---------------------------------------------------------------- CameraPhotoMapping

  /** camera-photo-mapping.go: maps a point onto a position of a photo. A
      suggested mapping was placed by the program, not by the user. */
  class CameraPhotoMapping {
    var photo: CameraPhoto?
    var key: string
    var createdAt: int
    var pointKey: string
    /** Where the point should be projected. */
    var position: PixelCoordinate
    /** Where the point is actually projected. */
    var projectedPos: PixelCoordinate
    /** The last squared residual. */
    var sr: Float
    var suggested: bool

    /** new(CameraPhotoMapping): every field has its zero value. */
    constructor ()
      ensures photo == null && key == "" && createdAt == 0 && pointKey == ""
      ensures position == PixelCoordinates.Zero && projectedPos == PixelCoordinates.Zero
      ensures sr == Fin(0.0) && !suggested
    {
      photo, key, createdAt, pointKey := null, "", 0, "";
      position, projectedPos, sr, suggested := PixelCoordinates.Zero, PixelCoordinates.Zero, Fin(0.0), false;
    }

    /** Stamps the creation time. */
    method InitData(now: int)
      modifies this`createdAt
      ensures createdAt == now
    {
      createdAt := now;
    }

    /** Sets key and photo and registers the mapping in the photo under the
        key. */
    method InitReferences(newParent: CameraPhoto, newKey: string)
      modifies this`photo, this`key, newParent`mappings
      ensures photo == newParent && key == newKey
      ensures newParent.mappings == old(newParent.mappings)[newKey := this]
    {
      photo, key := newParent, newKey;
      photo.mappings := photo.mappings[Key() := this];
    }

    function Key(): (r: string)
      reads this`key
      ensures r == key
    {
      key
    }

    /** Removes this mapping, and nothing else, from its photo. */
    method Delete()
      requires photo != null
      modifies photo`mappings
      ensures photo.mappings == old(photo.mappings) - {key}
    {
      photo.mappings := photo.mappings - {Key()};
    }

    /** A copy with the same data, registered in newParent under newKey.
        The source mapping is left unchanged. */
    method Copy(newParent: CameraPhoto, newKey: string, now: int) returns (c: CameraPhotoMapping)
      modifies newParent`mappings
      ensures fresh(c) && SameMapping(c, this)
      ensures c.photo == newParent && c.key == newKey
      ensures newParent.mappings == old(newParent.mappings)[newKey := c]
    {
      c := new CameraPhotoMapping();
      c.InitData(now);
      c.InitReferences(newParent, newKey);
      c.createdAt := createdAt;
      c.pointKey := pointKey;
      c.position := position;
      c.projectedPos := projectedPos;
      c.sr := sr;
      c.suggested := suggested;
    }
  }

  // ---------------------------------------------------------------- Rangefinder

  /** rangefinder.go: a distance measuring device and its measurements
      between pairs of points. */
  class Rangefinder {
    var site: Site?
    var key: string
    var name: string
    var createdAt: int
    var accuracy: real
    var measurements: map<string, RangefinderMeasurement>

    constructor (site: Site?, key: string, name: string, createdAt: int, accuracy: real,
                 measurements: map<string, RangefinderMeasurement>)
      ensures this.site == site && this.key == key && this.name == name && this.createdAt == createdAt
      ensures this.accuracy == accuracy && this.measurements == measurements
    {
      this.site, this.key, this.name, this.createdAt := site, key, name, createdAt;
      this.accuracy, this.measurements := accuracy, measurements;
    }

    function Key(): (r: string)
      reads this`key
      ensures r == key
    {
      key
    }

    /** Removes this rangefinder, and nothing else, from its site. */
    method Delete()
      requires site != null
      modifies site`rangefinders
      ensures site.rangefinders == old(site.rangefinders) - {key}
    {
      site.rangefinders := site.rangefinders - {Key()};
    }

    ghost predicate MeasurementsRestored()
      reads this`measurements, measurements.Values`key, measurements.Values`rangefinder
    {
      forall k :: k in measurements ==> measurements[k].key == k && measurements[k].rangefinder == this
    }

    /** The loop that runs after decoding: sets the key and the rangefinder
        reference of every measurement. */
    method RestoreChildrenRefs()
      modifies measurements.Values`key, measurements.Values`rangefinder
      ensures forall k :: k in measurements ==> measurements[k].rangefinder == this
      ensures Distinct(measurements) ==> MeasurementsRestored()
    {
      var todo := measurements.Keys;
      while todo != {}
        invariant todo <= measurements.Keys
        invariant forall k :: k in measurements.Keys - todo ==> measurements[k].rangefinder == this
        invariant forall k :: k in measurements.Keys - todo ==>
                    measurements[k].key in measurements.Keys - todo && measurements[measurements[k].key] == measurements[k]
        decreases |todo|
      {
        var k :| k in todo;
        measurements[k].key, measurements[k].rangefinder := k, this;
        todo := todo - {k};
      }
    }

    /** A deep copy with fresh, restored measurements and no key or site
        reference of its own. */
    method Copy() returns (c: Rangefinder)
      ensures fresh(c) && SameRangefinder(c, this)
      ensures c.site == null && c.key == ""
      ensures fresh(c.measurements.Values) && c.MeasurementsRestored()
    {
      var copies := CopyMeasurements();
      c := new Rangefinder(null, "", name, createdAt, accuracy, copies);
      c.RestoreChildrenRefs();
    }

    /** The copying loop of Copy: a fresh copy of every measurement, under
        the same key. */
    method CopyMeasurements() returns (copies: map<string, RangefinderMeasurement>)
      ensures fresh(copies.Values) && Distinct(copies)
      ensures SameRangefinderMeasurements(copies, measurements)
    {
      copies := map[];
      var todo := measurements.Keys;
      while todo != {}
        invariant todo <= measurements.Keys
        invariant copies.Keys == measurements.Keys - todo
        invariant fresh(copies.Values) && Distinct(copies)
        invariant forall k :: k in copies ==> SameRangefinderMeasurement(copies[k], measurements[k])
        decreases |todo|
      {
        var k :| k in todo;
        var mc := measurements[k].Copy();
        DistinctInsert(copies, k, mc);
        copies := copies[k := mc];
        todo := todo - {k};
      }
    }

    /** Registers a new measurement under a freshly generated key. */
    method NewMeasurement(key: string, now: int) returns (m: RangefinderMeasurement)
      requires site != null && site.hasIdGen && key !in measurements
      modifies this`measurements
      ensures fresh(m) && measurements == old(measurements)[key := m]
      ensures m.rangefinder == this && m.key == key && m.createdAt == now
      ensures m.p1 == "" && m.p2 == "" && m.measuredDistance == 0.0
    {
      m := new RangefinderMeasurement(this, key, now, "", "", 0.0);
      measurements := measurements[key := m];
    }

    /** The measurements, newest first; measurements created at the same time come in
        any order. keys is the order of their keys. */
    method MeasurementsSorted() returns (r: seq<RangefinderMeasurement>, ghost keys: seq<string>)
      ensures multiset(keys) == multiset(measurements.Keys) && NewestFirst(keys, RangefinderMeasurementStamps(measurements))
      ensures |r| == |keys| && forall i :: 0 <= i < |r| ==> keys[i] in measurements && r[i] == measurements[keys[i]]
      ensures forall i, j :: 0 <= i < j < |r| ==> r[i].createdAt >= r[j].createdAt
    {
      r, keys := SortValues(measurements, RangefinderMeasurementStamps(measurements));
    }
  }

  /** rangefinder-measurement.go: a distance measured between two points. */
  class RangefinderMeasurement {
    var rangefinder: Rangefinder?
    var key: string
    var createdAt: int
    var p1: string
    var p2: string
    var measuredDistance: real

    constructor (rangefinder: Rangefinder?, key: string, createdAt: int, p1: string, p2: string,
                 measuredDistance: real)
      ensures this.rangefinder == rangefinder && this.key == key && this.createdAt == createdAt
      ensures this.p1 == p1 && this.p2 == p2 && this.measuredDistance == measuredDistance
    {
      this.rangefinder, this.key, this.createdAt := rangefinder, key, createdAt;
      this.p1, this.p2, this.measuredDistance := p1, p2, measuredDistance;
    }

    function Key(): (r: string)
      reads this`key
      ensures r == key
    {
      key
    }

    /** Removes this measurement, and nothing else, from its rangefinder. */
    method Delete()
      requires rangefinder != null
      modifies rangefinder`measurements
      ensures rangefinder.measurements == old(rangefinder.measurements) - {key}
    {
      rangefinder.measurements := rangefinder.measurements - {Key()};
    }

    /** A copy of the data, with neither key nor rangefinder reference. */
    method Copy() returns (c: RangefinderMeasurement)
      ensures fresh(c) && SameRangefinderMeasurement(c, this)
      ensures c.rangefinder == null && c.key == ""
    {
      c := new RangefinderMeasurement(null, "", createdAt, p1, p2, measuredDistance);
    }
  }

  // ---------------------------------------------------------------- Tripod

  /** tripod.go: a rangefinder mounted on a tripod; its measurements are
      distances from the pivot point to points. */
  class Tripod {
    var site: Site?
    var key: string
    var name: string
    var createdAt: int
    /** The point the tripod turns about. */
    var position: Coordinate
    var accuracy: real
    /** How far the rangefinder sits from the tripod's pivot, along and
        across the measuring direction. */
    var offset: real
    var offsetSide: real
    var offsetLock: bool
    var offsetSideLock: bool
    var measurements: map<string, TripodMeasurement>

    constructor (site: Site?, key: string, name: string, createdAt: int, position: Coordinate,
                 accuracy: real, offset: real, offsetSide: real, offsetLock: bool, offsetSideLock: bool,
                 measurements: map<string, TripodMeasurement>)
      ensures this.site == site && this.key == key && this.name == name && this.createdAt == createdAt
      ensures this.position == position && this.accuracy == accuracy
      ensures this.offset == offset && this.offsetSide == offsetSide
      ensures this.offsetLock == offsetLock && this.offsetSideLock == offsetSideLock
      ensures this.measurements == measurements
    {
      this.site, this.key, this.name, this.createdAt := site, key, name, createdAt;
      this.position, this.accuracy, this.offset, this.offsetSide := position, accuracy, offset, offsetSide;
      this.offsetLock, this.offsetSideLock, this.measurements := offsetLock, offsetSideLock, measurements;
    }

    function Key(): (r: string)
      reads this`key
      ensures r == key
    {
      key
    }

    /** Removes this tripod, and nothing else, from its site. */
    method Delete()
      requires site != null
      modifies site`tripods
      ensures site.tripods == old(site.tripods) - {key}
    {
      site.tripods := site.tripods - {Key()};
    }

    ghost predicate MeasurementsRestored()
      reads this`measurements, measurements.Values`key, measurements.Values`tripod
    {
      forall k :: k in measurements ==> measurements[k].key == k && measurements[k].tripod == this
    }

    /** Sets the key and the tripod reference of every measurement. */
    method RestoreChildrenRefs()
      modifies measurements.Values`key, measurements.Values`tripod
      ensures forall k :: k in measurements ==> measurements[k].tripod == this
      ensures Distinct(measurements) ==> MeasurementsRestored()
    {
      var todo := measurements.Keys;
      while todo != {}
        invariant todo <= measurements.Keys
        invariant forall k :: k in measurements.Keys - todo ==> measurements[k].tripod == this
        invariant forall k :: k in measurements.Keys - todo ==>
                    measurements[k].key in measurements.Keys - todo && measurements[measurements[k].key] == measurements[k]
        decreases |todo|
      {
        var k :| k in todo;
        measurements[k].key, measurements[k].tripod := k, this;
        todo := todo - {k};
      }
    }

    /** A deep copy: all scalar fields, every measurement under the same
        key, then the references restored. */
    method Copy() returns (c: Tripod)
      ensures fresh(c) && SameTripod(c, this)
      ensures c.site == null && c.key == ""
      ensures fresh(c.measurements.Values) && c.MeasurementsRestored()
    {
      var copies := CopyMeasurements();
      c := new Tripod(null, "", name, createdAt, position, accuracy, offset, offsetSide,
                      offsetLock, offsetSideLock, copies);
      c.RestoreChildrenRefs();
    }

    /** The copying loop of Copy: a fresh copy of every measurement, under
        the same key. */
    method CopyMeasurements() returns (copies: map<string, TripodMeasurement>)
      ensures fresh(copies.Values) && Distinct(copies)
      ensures SameTripodMeasurements(copies, measurements)
    {
      copies := map[];
      var todo := measurements.Keys;
      while todo != {}
        invariant todo <= measurements.Keys
        invariant copies.Keys == measurements.Keys - todo
        invariant fresh(copies.Values) && Distinct(copies)
        invariant forall k :: k in copies ==> SameTripodMeasurement(copies[k], measurements[k])
        decreases |todo|
      {
        var k :| k in todo;
        var mc := measurements[k].Copy();
        DistinctInsert(copies, k, mc);
        copies := copies[k := mc];
        todo := todo - {k};
      }
    }

    /** Registers a new measurement under a freshly generated key. */
    method NewMeasurement(key: string, now: int) returns (m: TripodMeasurement)
      requires site != null && site.hasIdGen && key !in measurements
      modifies this`measurements
      ensures fresh(m) && measurements == old(measurements)[key := m]
      ensures m.tripod == this && m.key == key && m.createdAt == now
      ensures m.pointKey == "" && m.measuredDistance == 0.0
    {
      m := new TripodMeasurement(this, key, now, "", 0.0);
      measurements := measurements[key := m];
    }

    /** The measurements, newest first; measurements created at the same time come in
        any order. keys is the order of their keys. */
    method MeasurementsSorted() returns (r: seq<TripodMeasurement>, ghost keys: seq<string>)
      ensures multiset(keys) == multiset(measurements.Keys) && NewestFirst(keys, TripodMeasurementStamps(measurements))
      ensures |r| == |keys| && forall i :: 0 <= i < |r| ==> keys[i] in measurements && r[i] == measurements[keys[i]]
      ensures forall i, j :: 0 <= i < j < |r| ==> r[i].createdAt >= r[j].createdAt
    {
      r, keys := SortValues(measurements, TripodMeasurementStamps(measurements));
    }
  }

  /** tripod-measurement.go: a distance measured from the tripod to a
      point. */
  class TripodMeasurement {
    var tripod: Tripod?
    var key: string
    var createdAt: int
    var pointKey: string
    var measuredDistance: real

    constructor (tripod: Tripod?, key: string, createdAt: int, pointKey: string, measuredDistance: real)
      ensures this.tripod == tripod && this.key == key && this.createdAt == createdAt
      ensures this.pointKey == pointKey && this.measuredDistance == measuredDistance
    {
      this.tripod, this.key, this.createdAt := tripod, key, createdAt;
      this.pointKey, this.measuredDistance := pointKey, measuredDistance;
    }

    function Key(): (r: string)
      reads this`key
      ensures r == key
    {
      key
    }

    /** Removes this measurement, and nothing else, from its tripod. */
    method Delete()
      requires tripod != null
      modifies tripod`measurements
      ensures tripod.measurements == old(tripod.measurements) - {key}
    {
      tripod.measurements := tripod.measurements - {Key()};
    }

    /** A copy of the data, with neither key nor tripod reference. */
    method Copy() returns (c: TripodMeasurement)
      ensures fresh(c) && SameTripodMeasurement(c, this)
      ensures c.tripod == null && c.key == ""
    {
      c := new TripodMeasurement(null, "", createdAt, pointKey, measuredDistance);
    }
  }
}
