/** camera-photo.go: UpdateSuggestions, which keeps the suggested point
    mappings of a photo in line with the projection of the site's points.

    Every point whose projection falls into the image gets a mapping, a
    new suggested one if it has none; a point projected outside the image
    loses its suggested mapping. Mappings the user placed (not suggested)
    are never removed and never moved: only the position their point is
    projected to is recorded in them. Finally suggested mappings of points
    that no longer exist are removed.

    The map iteration order of Go is unspecified: the points are visited
    in an order the model chooses (returned as a ghost), and a search for
    the mapping of a point picks any mapping with that point key. */
module Suggestions {
  import opened Wrappers
  import opened Coordinates
  import opened PixelCoordinates
  import opened Numerics
  import opened Survey
  import Residuals

  /** A projected position lies in the image: its depth between the
      clipping planes and its pixel position inside the image rectangle. */
  predicate InFrame(p: PixelCoordinate, imageSize: PixelCoordinate)
  {
    0.0 <= p.Z() <= 1.0 && 0.0 <= p.X() <= imageSize.X() && 0.0 <= p.Y() <= imageSize.Y()
  }

  /** Where the point stored under key k is projected into the photo. */
  function Projection(n: Numerics, cp: CameraPhoto, k: string): (r: PixelCoordinate)
    requires cp.camera != null && cp.camera.site != null && k in cp.camera.site.points
    reads cp`camera, cp`imageSize, cp`position, cp`orientation, cp.camera`longSideAov, cp.camera`site
    reads cp.camera.site`points, cp.camera.site.points.Values`position
  {
    n.project(Pose(cp.camera.longSideAov, cp.imageSize, cp.position, cp.orientation), cp.camera.site.points[k].position)
  }

  /** The points of the site in map order, with their positions. */
  method PointsInMapOrder(site: Site) returns (points: seq<Point>, world: seq<Coordinate>, ghost keys: seq<string>)
    ensures |points| == |world| == |keys|
    ensures forall k :: k in site.points <==> k in keys
    ensures forall i, j :: 0 <= i < j < |keys| ==> keys[i] != keys[j]
    ensures forall i :: 0 <= i < |keys| ==> points[i] == site.points[keys[i]] && world[i] == points[i].position
  {
    points, world, keys := [], [], [];
    var todo := site.points.Keys;
    while todo != {}
      invariant todo <= site.points.Keys
      invariant forall k :: k in site.points ==> (k in keys <==> k !in todo)
      invariant forall i, j :: 0 <= i < j < |keys| ==> keys[i] != keys[j]
      invariant |points| == |world| == |keys|
      invariant forall i :: 0 <= i < |keys| ==> keys[i] in site.points
      invariant forall i :: 0 <= i < |keys| ==> points[i] == site.points[keys[i]] && world[i] == points[i].position
      decreases |todo|
    {
      var k :| k in todo;
      var point := site.points[k];
      points, world, keys := points + [point], world + [point.position], keys + [k];
      todo := todo - {k};
    }
  }

  /** The linear search of UpdateSuggestions: some mapping of the photo
      with the given point key, or null when there is none. */
  method FindMapping(cp: CameraPhoto, pointKey: string) returns (m: CameraPhotoMapping?, ghost mk: string)
    ensures m == null ==> forall k :: k in cp.mappings ==> cp.mappings[k].pointKey != pointKey
    ensures m != null ==> mk in cp.mappings && cp.mappings[mk] == m && m.pointKey == pointKey
  {
    m, mk := null, "";
    var todo := cp.mappings.Keys;
    while todo != {}
      invariant todo <= cp.mappings.Keys
      invariant forall k :: k in cp.mappings && k !in todo ==> cp.mappings[k].pointKey != pointKey
      decreases |todo|
    {
      var k :| k in todo;
      if cp.mappings[k].pointKey == pointKey {
        return cp.mappings[k], k;
      }
      todo := todo - {k};
    }
  }

  /** What UpdateSuggestions reads and writes of one mapping. */
  datatype MappingData = MappingData(key: string, photo: CameraPhoto?, pointKey: string, suggested: bool,
                                     position: PixelCoordinate, projectedPos: PixelCoordinate, createdAt: int)

  /** The data of every mapping of the photo, by mapping key. */
  ghost function Data(cp: CameraPhoto): (r: map<string, MappingData>)
    reads cp, cp.mappings.Values`key, cp.mappings.Values`photo, cp.mappings.Values`pointKey
    reads cp.mappings.Values`suggested, cp.mappings.Values`position, cp.mappings.Values`projectedPos
    reads cp.mappings.Values`createdAt
    ensures r.Keys == cp.mappings.Keys
  {
    map mk | mk in cp.mappings ::
      var m := cp.mappings[mk];
      MappingData(m.key, m.photo, m.pointKey, m.suggested, m.position, m.projectedPos, m.createdAt)
  }

  /** Every mapping is stored under its own key and refers back to cp. */
  predicate RestoredData(d: map<string, MappingData>, cp: CameraPhoto)
  {
    forall mk :: mk in d ==> d[mk].key == mk && d[mk].photo == cp
  }

  lemma DataRestored(cp: CameraPhoto)
    ensures RestoredData(Data(cp), cp) <==> cp.MappingsRestored()
  {
  }

  /** The data d records the projection p of the point k; a suggested
      mapping is also placed there. */
  predicate Records(d: MappingData, k: string, p: PixelCoordinate)
  {
    d.pointKey == k && d.projectedPos == p && (d.suggested ==> d.position == p)
  }

  /** The data of a mapping just made by NewMapping at time now and marked
      suggested. */
  function NewSuggestion(key: string, photo: CameraPhoto, now: int): (r: MappingData)
    ensures r.key == key && r.photo == photo && r.suggested && r.createdAt == now
  {
    MappingData(key, photo, "", true, PixelCoordinates.Zero, PixelCoordinates.Zero, now)
  }

  /** The in-frame update of the mapping d chosen for point k: it records
      the projection p, and a suggested mapping is also placed at p and
      given the point key. */
  function Placed(d: MappingData, k: string, p: PixelCoordinate): (r: MappingData)
    ensures r.key == d.key && r.photo == d.photo && r.suggested == d.suggested && r.projectedPos == p
    ensures d.suggested || d.pointKey == k ==> Records(r, k, p)
    ensures !d.suggested ==> r == d.(projectedPos := p)
  {
    var e := d.(projectedPos := p);
    if e.suggested then e.(position := p, pointKey := k) else e
  }

  /** The in-frame step for the point k on the mapping data d, giving e:
      the mapping mk with point key k records the projection p or, when no
      mapping has that point key, the new suggested mapping newKey does. */
  predicate InFrameStep(d: map<string, MappingData>, e: map<string, MappingData>, cp: CameraPhoto,
                        k: string, p: PixelCoordinate, newKey: string, now: int, mk: string, created: bool)
  {
    if created then
      (forall k2 :: k2 in d ==> d[k2].pointKey != k) &&
      mk == newKey && e == d[mk := Placed(NewSuggestion(newKey, cp, now), k, p)]
    else
      mk in d && d[mk].pointKey == k && e == d[mk := Placed(d[mk], k, p)]
  }

  /** The out-of-frame step for the point k on the mapping data d, giving
      e: the mapping mk with point key k is deleted when it is suggested and
      otherwise records the projection p; nothing changes when no mapping
      has that point key. */
  predicate OutOfFrameStep(d: map<string, MappingData>, e: map<string, MappingData>,
                           k: string, p: PixelCoordinate, mk: string, touched: bool)
  {
    if touched then
      mk in d && d[mk].pointKey == k &&
      e == (if d[mk].suggested then d - {mk} else d[mk := d[mk].(projectedPos := p)])
    else
      (forall k2 :: k2 in d ==> d[k2].pointKey != k) && e == d
  }

  /** The in-frame branch for one point: the mapping found for the point,
      or a new suggested one, records the projection; a suggested mapping
      is also moved there. No other mapping changes. */
  method SuggestInFrame(cp: CameraPhoto, k: string, proj: PixelCoordinate, newKey: string, now: int,
                        ghost pool: set<CameraPhotoMapping>)
      returns (ghost mk: string, ghost created: bool, ghost added: set<CameraPhotoMapping>)
    requires cp.camera != null && cp.camera.site != null && cp.camera.site.hasIdGen
    requires cp.MappingsRestored() && newKey !in cp.mappings
    requires forall k2 :: k2 in cp.mappings && cp.mappings[k2] !in pool ==> cp.mappings[k2].pointKey != k
    modifies cp`mappings, pool`projectedPos, pool`position, pool`pointKey
    ensures InFrameStep(old(Data(cp)), Data(cp), cp, k, proj, newKey, now, mk, created)
    ensures created ==> mk in cp.mappings && cp.mappings == old(cp.mappings)[mk := cp.mappings[mk]]
    ensures created ==> cp.mappings[mk] in added
    ensures !created ==> cp.mappings == old(cp.mappings)
    ensures fresh(added)
  {
    ghost var d0 := Data(cp);
    var m;
    m, mk := FindMapping(cp, k);
    created, added := m == null, {};
    if m == null {
      m := CreatePlaced(cp, k, proj, newKey, now);
      mk, added := newKey, {m};
    } else {
      Place(cp, m, mk, k, proj);
    }
  }

  /** A new suggested mapping for the in-frame point k, placed at its
      projection p. */
  method CreatePlaced(cp: CameraPhoto, k: string, proj: PixelCoordinate, newKey: string, now: int)
      returns (m: CameraPhotoMapping)
    requires cp.camera != null && cp.camera.site != null && cp.camera.site.hasIdGen
    requires cp.MappingsRestored() && newKey !in cp.mappings
    modifies cp`mappings
    ensures fresh(m) && m.createdAt == now
    ensures cp.mappings == old(cp.mappings)[newKey := m]
    ensures Data(cp) == old(Data(cp))[newKey := Placed(NewSuggestion(newKey, cp, now), k, proj)]
  {
    ghost var d0 := Data(cp);
    m := cp.NewMapping(newKey, now);
    m.suggested := true;
    m.projectedPos, m.position, m.pointKey := proj, proj, k;
    forall k2 | k2 in cp.mappings
      ensures Data(cp)[k2] == d0[newKey := Placed(NewSuggestion(newKey, cp, now), k, proj)][k2]
    {
      if k2 != newKey {
        assert cp.mappings[k2] == old(cp.mappings[k2]) != m;
      }
    }
  }

  /** The update of the mapping m stored under mk for the in-frame point k. */
  method Place(cp: CameraPhoto, m: CameraPhotoMapping, ghost mk: string, k: string, proj: PixelCoordinate)
    requires cp.MappingsRestored() && mk in cp.mappings && cp.mappings[mk] == m
    modifies m`projectedPos, m`position, m`pointKey
    ensures Data(cp) == old(Data(cp))[mk := Placed(old(Data(cp))[mk], k, proj)]
  {
    ghost var d0 := Data(cp);
    m.projectedPos := proj;
    if m.suggested {
      m.position, m.pointKey := proj, k;
    }
    forall k2 | k2 in cp.mappings
      ensures Data(cp)[k2] == d0[mk := Placed(d0[mk], k, proj)][k2]
    {
      if k2 != mk {
        assert cp.mappings[k2].key == k2;
      }
    }
  }

  /** The out-of-frame branch for one point: the mapping found for the
      point, if any, is deleted when it is suggested, and otherwise only
      records the projection. No other mapping changes. */
  method DropOutOfFrame(cp: CameraPhoto, k: string, proj: PixelCoordinate, ghost pool: set<CameraPhotoMapping>)
      returns (ghost mk: string, ghost touched: bool)
    requires cp.MappingsRestored()
    requires forall k2 :: k2 in cp.mappings && cp.mappings[k2] !in pool ==> cp.mappings[k2].pointKey != k
    modifies cp`mappings, pool`projectedPos
    ensures OutOfFrameStep(old(Data(cp)), Data(cp), k, proj, mk, touched)
    ensures cp.mappings == old(cp.mappings) || (touched && cp.mappings == old(cp.mappings) - {mk})
  {
    ghost var d0 := Data(cp);
    var m;
    m, mk := FindMapping(cp, k);
    touched := m != null;
    if m != null {
      if m.suggested {
        m.Delete();
        assert Data(cp) == d0 - {mk};
      } else {
        m.projectedPos := proj;
        forall k2 | k2 in cp.mappings
          ensures Data(cp)[k2] == d0[mk := d0[mk].(projectedPos := proj)][k2]
        {
          if k2 != mk {
            assert cp.mappings[k2].key == k2;
          }
        }
      }
    }
  }

  // ---------------------------------------------------------------- progress of the point loop

  /** The points not yet visited are neither found nor touched, and the
      keys reserved for their new mappings are unused. */
  predicate Pending(d: map<string, MappingData>, keys: seq<string>, newKeys: seq<string>, i: nat,
                    found: map<string, string>, touched: map<string, string>)
  {
    (forall j :: i <= j < |keys| ==> keys[j] !in found && keys[j] !in touched) &&
    (forall j :: i <= j < |newKeys| ==> newKeys[j] !in d)
  }

  /** Every visited point projected into the image has the mapping found
      for it, which records the projection. */
  predicate Covered(d: map<string, MappingData>, keys: seq<string>, projected: seq<PixelCoordinate>,
                    imageSize: PixelCoordinate, i: nat, found: map<string, string>)
    requires i <= |keys| == |projected|
  {
    forall j :: 0 <= j < i && InFrame(projected[j], imageSize) ==>
      keys[j] in found && found[keys[j]] in d && Records(d[found[keys[j]]], keys[j], projected[j])
  }

  /** Mappings that were there before keep their point key, kind and
      creation time, the user-placed ones also their position; one that is
      gone was a suggested mapping touched for its point. */
  predicate Kept(d0: map<string, MappingData>, d: map<string, MappingData>, touched: map<string, string>)
  {
    (forall mk :: mk in d0 && mk in d ==>
       d[mk].pointKey == d0[mk].pointKey && d[mk].suggested == d0[mk].suggested &&
       d[mk].createdAt == d0[mk].createdAt && (!d0[mk].suggested ==> d[mk].position == d0[mk].position)) &&
    (forall mk :: mk in d0 && mk !in d ==>
       d0[mk].suggested && d0[mk].pointKey in touched && touched[d0[mk].pointKey] == mk)
  }

  /** Every visited point projected outside the image that had a mapping
      has touched one: a suggested one is gone, a user-placed one records
      the projection. */
  predicate Dropped(d0: map<string, MappingData>, d: map<string, MappingData>, keys: seq<string>,
                    projected: seq<PixelCoordinate>, imageSize: PixelCoordinate, i: nat,
                    touched: map<string, string>)
    requires i <= |keys| == |projected|
  {
    forall j :: 0 <= j < i && !InFrame(projected[j], imageSize) ==>
      (forall mk :: mk in d0 && d0[mk].pointKey == keys[j] ==> keys[j] in touched) &&
      (keys[j] in touched ==>
         touched[keys[j]] in d0 && d0[touched[keys[j]]].pointKey == keys[j] &&
         (d0[touched[keys[j]]].suggested ==> touched[keys[j]] !in d) &&
         (!d0[touched[keys[j]]].suggested ==>
            touched[keys[j]] in d && d[touched[keys[j]]].projectedPos == projected[j]))
  }

  /** A mapping chosen for no point is as it was. */
  predicate Untouched(d0: map<string, MappingData>, d: map<string, MappingData>,
                      found: map<string, string>, touched: map<string, string>)
  {
    forall mk :: mk in d0 && (forall k :: k in found ==> found[k] != mk) &&
                 (forall k :: k in touched ==> touched[k] != mk) ==>
      mk in d && d[mk] == d0[mk]
  }

  /** A mapping that was not there before is the suggested mapping found
      for its point, created at time now. */
  predicate Created(d0: map<string, MappingData>, d: map<string, MappingData>, found: map<string, string>,
                    now: int)
  {
    forall mk :: mk in d && mk !in d0 ==>
      d[mk].suggested && d[mk].pointKey in found && found[d[mk].pointKey] == mk && d[mk].createdAt == now
  }

  /** The invariant of the point loop of UpdateSuggestions after i points. */
  predicate Progress(d0: map<string, MappingData>, d: map<string, MappingData>, cp: CameraPhoto,
                     keys: seq<string>, projected: seq<PixelCoordinate>, imageSize: PixelCoordinate,
                     newKeys: seq<string>, i: nat, found: map<string, string>, touched: map<string, string>, now: int)
    requires i <= |keys| == |projected|
  {
    RestoredData(d, cp) && Pending(d, keys, newKeys, i, found, touched) &&
    Covered(d, keys, projected, imageSize, i, found) && Kept(d0, d, touched) &&
    Dropped(d0, d, keys, projected, imageSize, i, touched) && Untouched(d0, d, found, touched) &&
    Created(d0, d, found, now)
  }

  /** Nothing is visited yet. */
  lemma ProgressStart(d0: map<string, MappingData>, cp: CameraPhoto, keys: seq<string>,
                      projected: seq<PixelCoordinate>, imageSize: PixelCoordinate, newKeys: seq<string>,
                      now: int)
    requires |keys| == |projected| && RestoredData(d0, cp)
    requires forall j :: 0 <= j < |newKeys| ==> newKeys[j] !in d0
    ensures Progress(d0, d0, cp, keys, projected, imageSize, newKeys, 0, map[], map[], now)
  {
  }

  /** The in-frame step keeps the loop invariant. */
  lemma ProgressInFrame(d0: map<string, MappingData>, d: map<string, MappingData>, e: map<string, MappingData>,
                        cp: CameraPhoto, keys: seq<string>, projected: seq<PixelCoordinate>,
                        imageSize: PixelCoordinate, newKeys: seq<string>, i: nat,
                        found: map<string, string>, touched: map<string, string>, now: int, mk: string, created: bool)
    requires i < |keys| == |projected| <= |newKeys|
    requires forall a, b :: 0 <= a < b < |keys| ==> keys[a] != keys[b]
    requires forall a, b :: 0 <= a < b < |newKeys| ==> newKeys[a] != newKeys[b]
    requires forall j :: 0 <= j < |newKeys| ==> newKeys[j] !in d0
    requires Progress(d0, d, cp, keys, projected, imageSize, newKeys, i, found, touched, now)
    requires InFrame(projected[i], imageSize)
    requires InFrameStep(d, e, cp, keys[i], projected[i], newKeys[i], now, mk, created)
    ensures Progress(d0, e, cp, keys, projected, imageSize, newKeys, i + 1, found[keys[i] := mk], touched, now)
  {
    assert keys[i] !in found && keys[i] !in touched && newKeys[i] !in d;
    InFramePending(d, e, cp, keys, projected, newKeys, i, found, touched, now, mk, created);
    InFrameCovered(d, e, cp, keys, projected, imageSize, newKeys, i, found, now, mk, created);
    InFrameKept(d0, d, e, cp, keys[i], projected[i], newKeys[i], touched, now, mk, created);
    InFrameDropped(d0, d, e, cp, keys, projected, imageSize, newKeys, i, touched, now, mk, created);
    InFrameUntouched(d0, d, e, cp, keys[i], projected[i], newKeys[i], found, touched, now, mk, created);
    InFrameCreated(d0, d, e, cp, keys[i], projected[i], newKeys[i], found, now, mk, created);
  }

  lemma InFramePending(d: map<string, MappingData>, e: map<string, MappingData>, cp: CameraPhoto,
                       keys: seq<string>, projected: seq<PixelCoordinate>, newKeys: seq<string>, i: nat,
                       found: map<string, string>, touched: map<string, string>, now: int, mk: string, created: bool)
    requires i < |keys| == |projected| <= |newKeys|
    requires forall a, b :: 0 <= a < b < |keys| ==> keys[a] != keys[b]
    requires forall a, b :: 0 <= a < b < |newKeys| ==> newKeys[a] != newKeys[b]
    requires Pending(d, keys, newKeys, i, found, touched)
    requires InFrameStep(d, e, cp, keys[i], projected[i], newKeys[i], now, mk, created)
    ensures Pending(e, keys, newKeys, i + 1, found[keys[i] := mk], touched)
  {
    forall j | i + 1 <= j < |newKeys|
      ensures newKeys[j] !in e
    {
      assert newKeys[j] != newKeys[i] && newKeys[j] !in d;
    }
    forall j | i + 1 <= j < |keys|
      ensures keys[j] !in found[keys[i] := mk]
    {
      assert keys[j] != keys[i];
    }
  }

  lemma InFrameCovered(d: map<string, MappingData>, e: map<string, MappingData>, cp: CameraPhoto,
                       keys: seq<string>, projected: seq<PixelCoordinate>, imageSize: PixelCoordinate,
                       newKeys: seq<string>, i: nat, found: map<string, string>, now: int, mk: string, created: bool)
    requires i < |keys| == |projected| <= |newKeys|
    requires forall a, b :: 0 <= a < b < |keys| ==> keys[a] != keys[b]
    requires keys[i] !in found && newKeys[i] !in d
    requires Covered(d, keys, projected, imageSize, i, found)
    requires InFrame(projected[i], imageSize)
    requires InFrameStep(d, e, cp, keys[i], projected[i], newKeys[i], now, mk, created)
    ensures Covered(e, keys, projected, imageSize, i + 1, found[keys[i] := mk])
  {
    var f' := found[keys[i] := mk];
    forall j | 0 <= j < i + 1 && InFrame(projected[j], imageSize)
      ensures keys[j] in f' && f'[keys[j]] in e && Records(e[f'[keys[j]]], keys[j], projected[j])
    {
      if j < i {
        var f := found[keys[j]];
        assert keys[j] != keys[i] && f'[keys[j]] == f;
        assert f != mk by {
          if !created {
            assert d[mk].pointKey == keys[i] != keys[j] == d[f].pointKey;
          }
        }
      }
    }
  }

  lemma InFrameKept(d0: map<string, MappingData>, d: map<string, MappingData>, e: map<string, MappingData>,
                    cp: CameraPhoto, k: string, p: PixelCoordinate, newKey: string,
                    touched: map<string, string>, now: int, mk: string, created: bool)
    requires newKey !in d0
    requires Kept(d0, d, touched)
    requires InFrameStep(d, e, cp, k, p, newKey, now, mk, created)
    ensures Kept(d0, e, touched)
  {
  }

  lemma InFrameDropped(d0: map<string, MappingData>, d: map<string, MappingData>, e: map<string, MappingData>,
                       cp: CameraPhoto, keys: seq<string>, projected: seq<PixelCoordinate>,
                       imageSize: PixelCoordinate, newKeys: seq<string>, i: nat,
                       touched: map<string, string>, now: int, mk: string, created: bool)
    requires i < |keys| == |projected| <= |newKeys|
    requires forall a, b :: 0 <= a < b < |keys| ==> keys[a] != keys[b]
    requires newKeys[i] !in d0 && newKeys[i] !in d
    requires Kept(d0, d, touched) && Dropped(d0, d, keys, projected, imageSize, i, touched)
    requires InFrame(projected[i], imageSize)
    requires InFrameStep(d, e, cp, keys[i], projected[i], newKeys[i], now, mk, created)
    ensures Dropped(d0, e, keys, projected, imageSize, i + 1, touched)
  {
    forall j | 0 <= j < i && !InFrame(projected[j], imageSize) && keys[j] in touched
      ensures touched[keys[j]] in d0 && d0[touched[keys[j]]].pointKey == keys[j]
      ensures d0[touched[keys[j]]].suggested ==> touched[keys[j]] !in e
      ensures !d0[touched[keys[j]]].suggested ==>
                touched[keys[j]] in e && e[touched[keys[j]]].projectedPos == projected[j]
    {
      var t := touched[keys[j]];
      assert keys[j] != keys[i];
      if t in d {
        assert d[t].pointKey == keys[j];
        assert t != mk && e[t] == d[t];
      }
    }
  }

  lemma InFrameUntouched(d0: map<string, MappingData>, d: map<string, MappingData>, e: map<string, MappingData>,
                         cp: CameraPhoto, k: string, p: PixelCoordinate, newKey: string,
                         found: map<string, string>, touched: map<string, string>, now: int, mk: string, created: bool)
    requires k !in found
    requires Untouched(d0, d, found, touched)
    requires InFrameStep(d, e, cp, k, p, newKey, now, mk, created)
    ensures Untouched(d0, e, found[k := mk], touched)
  {
    var f' := found[k := mk];
    forall mk2 | mk2 in d0 && (forall k2 :: k2 in f' ==> f'[k2] != mk2) &&
                 (forall k2 :: k2 in touched ==> touched[k2] != mk2)
      ensures mk2 in e && e[mk2] == d0[mk2]
    {
      assert f'[k] != mk2;
      forall k2 | k2 in found
        ensures found[k2] != mk2
      {
        assert f'[k2] == found[k2];
      }
    }
  }

  lemma InFrameCreated(d0: map<string, MappingData>, d: map<string, MappingData>, e: map<string, MappingData>,
                       cp: CameraPhoto, k: string, p: PixelCoordinate, newKey: string,
                       found: map<string, string>, now: int, mk: string, created: bool)
    requires k !in found
    requires Created(d0, d, found, now)
    requires InFrameStep(d, e, cp, k, p, newKey, now, mk, created)
    ensures Created(d0, e, found[k := mk], now)
  {
    var f' := found[k := mk];
    forall mk2 | mk2 in e && mk2 !in d0
      ensures e[mk2].suggested && e[mk2].pointKey in f' && f'[e[mk2].pointKey] == mk2
    {
      if mk2 != mk {
        assert e[mk2] == d[mk2] && d[mk2].pointKey in found;
        assert d[mk2].pointKey != k;
      }
    }
  }

  /** The out-of-frame step keeps the loop invariant. */
  lemma ProgressOutOfFrame(d0: map<string, MappingData>, d: map<string, MappingData>, e: map<string, MappingData>,
                           cp: CameraPhoto, keys: seq<string>, projected: seq<PixelCoordinate>,
                           imageSize: PixelCoordinate, newKeys: seq<string>, i: nat,
                           found: map<string, string>, touched: map<string, string>, now: int,
                           mk: string, t: bool)
    requires i < |keys| == |projected| <= |newKeys|
    requires forall a, b :: 0 <= a < b < |keys| ==> keys[a] != keys[b]
    requires Progress(d0, d, cp, keys, projected, imageSize, newKeys, i, found, touched, now)
    requires !InFrame(projected[i], imageSize)
    requires OutOfFrameStep(d, e, keys[i], projected[i], mk, t)
    ensures Progress(d0, e, cp, keys, projected, imageSize, newKeys, i + 1, found,
                     if t then touched[keys[i] := mk] else touched, now)
  {
    assert keys[i] !in found && keys[i] !in touched;
    assert t ==> mk in d0;
    OutOfFramePending(d, e, keys, projected, newKeys, i, found, touched, mk, t);
    OutOfFrameCovered(d, e, keys, projected, imageSize, i, found, mk, t);
    OutOfFrameKept(d0, d, e, keys[i], projected[i], touched, mk, t);
    OutOfFrameDropped(d0, d, e, keys, projected, imageSize, i, touched, mk, t);
    OutOfFrameUntouched(d0, d, e, keys[i], projected[i], found, touched, mk, t);
    assert Created(d0, e, found, now);
  }

  lemma OutOfFramePending(d: map<string, MappingData>, e: map<string, MappingData>,
                          keys: seq<string>, projected: seq<PixelCoordinate>, newKeys: seq<string>, i: nat,
                          found: map<string, string>, touched: map<string, string>, mk: string, t: bool)
    requires i < |keys| == |projected| <= |newKeys|
    requires forall a, b :: 0 <= a < b < |keys| ==> keys[a] != keys[b]
    requires Pending(d, keys, newKeys, i, found, touched)
    requires OutOfFrameStep(d, e, keys[i], projected[i], mk, t)
    ensures Pending(e, keys, newKeys, i + 1, found, if t then touched[keys[i] := mk] else touched)
  {
    forall j | i + 1 <= j < |keys|
      ensures keys[j] !in found && keys[j] !in (if t then touched[keys[i] := mk] else touched)
    {
      assert keys[j] != keys[i];
    }
  }

  lemma OutOfFrameCovered(d: map<string, MappingData>, e: map<string, MappingData>,
                          keys: seq<string>, projected: seq<PixelCoordinate>, imageSize: PixelCoordinate,
                          i: nat, found: map<string, string>, mk: string, t: bool)
    requires i < |keys| == |projected|
    requires forall a, b :: 0 <= a < b < |keys| ==> keys[a] != keys[b]
    requires Covered(d, keys, projected, imageSize, i, found)
    requires !InFrame(projected[i], imageSize)
    requires OutOfFrameStep(d, e, keys[i], projected[i], mk, t)
    ensures Covered(e, keys, projected, imageSize, i + 1, found)
  {
    forall j | 0 <= j < i + 1 && InFrame(projected[j], imageSize)
      ensures keys[j] in found && found[keys[j]] in e && Records(e[found[keys[j]]], keys[j], projected[j])
    {
      var f := found[keys[j]];
      if t {
        assert d[mk].pointKey == keys[i] != keys[j] == d[f].pointKey;
      }
    }
  }

  lemma OutOfFrameKept(d0: map<string, MappingData>, d: map<string, MappingData>, e: map<string, MappingData>,
                       k: string, p: PixelCoordinate, touched: map<string, string>, mk: string, t: bool)
    requires k !in touched
    requires t ==> mk in d0
    requires Kept(d0, d, touched)
    requires OutOfFrameStep(d, e, k, p, mk, t)
    ensures Kept(d0, e, if t then touched[k := mk] else touched)
  {
    var t' := if t then touched[k := mk] else touched;
    forall mk2 | mk2 in d0 && mk2 !in e
      ensures d0[mk2].suggested && d0[mk2].pointKey in t' && t'[d0[mk2].pointKey] == mk2
    {
      if mk2 in d {
        assert t && mk2 == mk;
      } else {
        assert d0[mk2].pointKey in touched;
      }
    }
  }

  lemma OutOfFrameDropped(d0: map<string, MappingData>, d: map<string, MappingData>, e: map<string, MappingData>,
                          keys: seq<string>, projected: seq<PixelCoordinate>, imageSize: PixelCoordinate,
                          i: nat, touched: map<string, string>, mk: string, t: bool)
    requires i < |keys| == |projected|
    requires forall a, b :: 0 <= a < b < |keys| ==> keys[a] != keys[b]
    requires keys[i] !in touched
    requires t ==> mk in d0
    requires Kept(d0, d, touched) && Dropped(d0, d, keys, projected, imageSize, i, touched)
    requires !InFrame(projected[i], imageSize)
    requires OutOfFrameStep(d, e, keys[i], projected[i], mk, t)
    ensures Dropped(d0, e, keys, projected, imageSize, i + 1, if t then touched[keys[i] := mk] else touched)
  {
    var t' := if t then touched[keys[i] := mk] else touched;
    forall j | 0 <= j < i + 1 && !InFrame(projected[j], imageSize)
      ensures forall mk2 :: mk2 in d0 && d0[mk2].pointKey == keys[j] ==> keys[j] in t'
      ensures keys[j] in t' ==>
                t'[keys[j]] in d0 && d0[t'[keys[j]]].pointKey == keys[j] &&
                (d0[t'[keys[j]]].suggested ==> t'[keys[j]] !in e) &&
                (!d0[t'[keys[j]]].suggested ==> t'[keys[j]] in e && e[t'[keys[j]]].projectedPos == projected[j])
    {
      if j < i {
        assert keys[j] != keys[i];
        if keys[j] in touched {
          var x := touched[keys[j]];
          if x in d {
            assert d[x].pointKey == keys[j];
          }
        }
      } else {
        forall mk2 | mk2 in d0 && d0[mk2].pointKey == keys[j]
          ensures keys[j] in t'
        {
          assert mk2 in d;
        }
      }
    }
  }

  lemma OutOfFrameUntouched(d0: map<string, MappingData>, d: map<string, MappingData>, e: map<string, MappingData>,
                            k: string, p: PixelCoordinate, found: map<string, string>,
                            touched: map<string, string>, mk: string, t: bool)
    requires k !in touched
    requires Untouched(d0, d, found, touched)
    requires OutOfFrameStep(d, e, k, p, mk, t)
    ensures Untouched(d0, e, found, if t then touched[k := mk] else touched)
  {
    var t' := if t then touched[k := mk] else touched;
    forall mk2 | mk2 in d0 && (forall k2 :: k2 in found ==> found[k2] != mk2) &&
                 (forall k2 :: k2 in t' ==> t'[k2] != mk2)
      ensures mk2 in e && e[mk2] == d0[mk2]
    {
      forall k2 | k2 in touched
        ensures touched[k2] != mk2
      {
        assert t'[k2] == touched[k2];
      }
      if t {
        assert t'[k] != mk2;
      }
    }
  }

  // ---------------------------------------------------------------- the loops of UpdateSuggestions

  /** The point loop of UpdateSuggestions: visits the points in the given
      order, each with its projection. newKeys[i] is the key the generator
      hands out when the i-th point needs a new mapping; pool holds the
      mapping objects the photo has on entry. */
  method ProcessPoints(cp: CameraPhoto, points: seq<Point>, projected: seq<PixelCoordinate>,
                       newKeys: seq<string>, now: int, ghost keys: seq<string>,
                       ghost pool: set<CameraPhotoMapping>)
      returns (ghost found: map<string, string>, ghost touched: map<string, string>)
    requires cp.camera != null && cp.camera.site != null && cp.camera.site.hasIdGen
    requires cp.MappingsRestored()
    requires |points| == |keys| == |projected| <= |newKeys|
    requires forall j :: 0 <= j < |points| ==> points[j].key == keys[j]
    requires forall a, b :: 0 <= a < b < |keys| ==> keys[a] != keys[b]
    requires forall a, b :: 0 <= a < b < |newKeys| ==> newKeys[a] != newKeys[b]
    requires forall j :: 0 <= j < |newKeys| ==> newKeys[j] !in cp.mappings
    requires forall mk :: mk in cp.mappings ==> cp.mappings[mk] in pool
    modifies cp`mappings, pool`projectedPos, pool`position, pool`pointKey
    ensures Progress(old(Data(cp)), Data(cp), cp, keys, projected, cp.imageSize, newKeys, |keys|, found, touched, now)
    ensures forall mk :: mk in cp.mappings && mk in old(cp.mappings) ==> cp.mappings[mk] == old(cp.mappings)[mk]
    ensures forall mk :: mk in cp.mappings && mk !in old(cp.mappings) ==>
              fresh(cp.mappings[mk])
  {
    ghost var d0 := Data(cp);
    ghost var m0 := cp.mappings;
    DataRestored(cp);
    ProgressStart(d0, cp, keys, projected, cp.imageSize, newKeys, now);
    found, touched := map[], map[];
    ghost var made: set<CameraPhotoMapping> := {};
    var i := 0;
    while i < |points|
      invariant 0 <= i <= |points|
      invariant Progress(d0, Data(cp), cp, keys, projected, cp.imageSize, newKeys, i, found, touched, now)
      invariant Tracked(m0, cp.mappings, made)
      invariant fresh(made)
    {
      found, touched, made := ProcessPoint(cp, points[i], projected[i], newKeys[i], now, pool, d0, m0, made,
                                           keys, projected, newKeys, i, found, touched);
      i := i + 1;
    }
  }

  /** One turn of the point loop: the i-th point, with its projection and
      the key a new mapping would get. */
  method ProcessPoint(cp: CameraPhoto, point: Point, p: PixelCoordinate, newKey: string, now: int,
                      ghost pool: set<CameraPhotoMapping>, ghost d0: map<string, MappingData>,
                      ghost m0: map<string, CameraPhotoMapping>, ghost made: set<CameraPhotoMapping>,
                      ghost keys: seq<string>, ghost projected: seq<PixelCoordinate>, ghost newKeys: seq<string>,
                      ghost i: nat, ghost found: map<string, string>, ghost touched: map<string, string>)
      returns (ghost found': map<string, string>, ghost touched': map<string, string>,
               ghost made': set<CameraPhotoMapping>)
    requires cp.camera != null && cp.camera.site != null && cp.camera.site.hasIdGen
    requires i < |keys| == |projected| <= |newKeys|
    requires keys[i] == point.key && projected[i] == p && newKeys[i] == newKey
    requires forall a, b :: 0 <= a < b < |keys| ==> keys[a] != keys[b]
    requires forall a, b :: 0 <= a < b < |newKeys| ==> newKeys[a] != newKeys[b]
    requires forall j :: 0 <= j < |newKeys| ==> newKeys[j] !in d0
    requires Progress(d0, Data(cp), cp, keys, projected, cp.imageSize, newKeys, i, found, touched, now)
    requires m0.Keys == d0.Keys && forall mk :: mk in m0 ==> m0[mk] in pool
    requires Tracked(m0, cp.mappings, made)
    modifies cp`mappings, pool`projectedPos, pool`position, pool`pointKey
    ensures Progress(d0, Data(cp), cp, keys, projected, cp.imageSize, newKeys, i + 1, found', touched', now)
    ensures Tracked(m0, cp.mappings, made')
    ensures fresh(made' - made)
  {
    var k := point.Key();
    ghost var before := cp.mappings;
    if InFrame(p, cp.imageSize) {
      ghost var added;
      found', touched', added := InFramePoint(cp, k, p, newKey, now, pool, d0, m0,
                                              keys, projected, newKeys, i, found, touched);
      TrackedAdd(m0, before, cp.mappings, made, added, newKey);
      made' := made + added;
    } else {
      ghost var mk;
      found', touched', mk := OutOfFramePoint(cp, k, p, newKey, now, pool, d0, m0,
                                              keys, projected, newKeys, i, found, touched);
      TrackedRemove(m0, before, cp.mappings, made, mk);
      made' := made;
    }
  }

  /** Every mapping the photo holds is either the one it held under the
      same key on entry to the point loop, or one the loop has made. */
  predicate Tracked(m0: map<string, CameraPhotoMapping>, m: map<string, CameraPhotoMapping>,
                    made: set<CameraPhotoMapping>)
  {
    forall mk :: mk in m ==> (mk in m0 && m[mk] == m0[mk]) || (mk !in m0 && m[mk] in made)
  }

  lemma TrackedAdd(m0: map<string, CameraPhotoMapping>, before: map<string, CameraPhotoMapping>,
                   after: map<string, CameraPhotoMapping>, made: set<CameraPhotoMapping>,
                   added: set<CameraPhotoMapping>, newKey: string)
    requires Tracked(m0, before, made) && newKey !in m0
    requires after == before || (newKey in after && after == before[newKey := after[newKey]] && after[newKey] in added)
    ensures Tracked(m0, after, made + added)
  {
  }

  lemma TrackedRemove(m0: map<string, CameraPhotoMapping>, before: map<string, CameraPhotoMapping>,
                      after: map<string, CameraPhotoMapping>, made: set<CameraPhotoMapping>, mk: string)
    requires Tracked(m0, before, made)
    requires after == before || after == before - {mk}
    ensures Tracked(m0, after, made)
  {
  }

  /** One turn of the point loop for a point projected into the image. */
  method InFramePoint(cp: CameraPhoto, k: string, p: PixelCoordinate, newKey: string, now: int,
                      ghost pool: set<CameraPhotoMapping>, ghost d0: map<string, MappingData>,
                      ghost m0: map<string, CameraPhotoMapping>,
                      ghost keys: seq<string>, ghost projected: seq<PixelCoordinate>, ghost newKeys: seq<string>,
                      ghost i: nat, ghost found: map<string, string>, ghost touched: map<string, string>)
      returns (ghost found': map<string, string>, ghost touched': map<string, string>,
               ghost added: set<CameraPhotoMapping>)
    requires cp.camera != null && cp.camera.site != null && cp.camera.site.hasIdGen
    requires i < |keys| == |projected| <= |newKeys|
    requires keys[i] == k && projected[i] == p && newKeys[i] == newKey && InFrame(p, cp.imageSize)
    requires forall a, b :: 0 <= a < b < |keys| ==> keys[a] != keys[b]
    requires forall a, b :: 0 <= a < b < |newKeys| ==> newKeys[a] != newKeys[b]
    requires forall j :: 0 <= j < |newKeys| ==> newKeys[j] !in d0
    requires Progress(d0, Data(cp), cp, keys, projected, cp.imageSize, newKeys, i, found, touched, now)
    requires m0.Keys == d0.Keys && forall mk :: mk in m0 ==> m0[mk] in pool
    requires forall mk :: mk in cp.mappings && mk in m0 ==> cp.mappings[mk] == m0[mk]
    modifies cp`mappings, pool`projectedPos, pool`position, pool`pointKey
    ensures Progress(d0, Data(cp), cp, keys, projected, cp.imageSize, newKeys, i + 1, found', touched', now)
    ensures cp.mappings == old(cp.mappings) ||
            (newKey in cp.mappings && cp.mappings == old(cp.mappings)[newKey := cp.mappings[newKey]] &&
             cp.mappings[newKey] in added)
    ensures fresh(added)
  {
    ghost var d := Data(cp);
    DataRestored(cp);
    OthersElsewhere(cp, k, pool, d0, m0, found, now);
    ghost var mk, created;
    mk, created, added := SuggestInFrame(cp, k, p, newKey, now, pool);
    ProgressInFrame(d0, d, Data(cp), cp, keys, projected, cp.imageSize, newKeys, i, found, touched, now, mk, created);
    found', touched' := found[k := mk], touched;
  }

  /** Mappings that are not among the photo's mappings on entry to the
      point loop (not in pool) have point keys the loop has found already,
      so the step for a point k not yet found does not need them. */
  lemma OthersElsewhere(cp: CameraPhoto, k: string, pool: set<CameraPhotoMapping>, d0: map<string, MappingData>,
                        m0: map<string, CameraPhotoMapping>, found: map<string, string>, now: int)
    requires m0.Keys == d0.Keys && forall mk :: mk in m0 ==> m0[mk] in pool
    requires forall mk :: mk in cp.mappings && mk in m0 ==> cp.mappings[mk] == m0[mk]
    requires Created(d0, Data(cp), found, now) && k !in found
    ensures forall k2 :: k2 in cp.mappings && cp.mappings[k2] !in pool ==> cp.mappings[k2].pointKey != k
  {
    forall k2 | k2 in cp.mappings && cp.mappings[k2] !in pool
      ensures cp.mappings[k2].pointKey != k
    {
      assert k2 !in m0 && Data(cp)[k2].pointKey in found;
    }
  }

  /** One turn of the point loop for a point projected outside the image. */
  method OutOfFramePoint(cp: CameraPhoto, k: string, p: PixelCoordinate, newKey: string, now: int,
                      ghost pool: set<CameraPhotoMapping>, ghost d0: map<string, MappingData>,
                      ghost m0: map<string, CameraPhotoMapping>,
                      ghost keys: seq<string>, ghost projected: seq<PixelCoordinate>, ghost newKeys: seq<string>,
                      ghost i: nat, ghost found: map<string, string>, ghost touched: map<string, string>)
      returns (ghost found': map<string, string>, ghost touched': map<string, string>, ghost mk: string)
    requires cp.camera != null && cp.camera.site != null && cp.camera.site.hasIdGen
    requires i < |keys| == |projected| <= |newKeys|
    requires keys[i] == k && projected[i] == p && newKeys[i] == newKey && !InFrame(p, cp.imageSize)
    requires forall a, b :: 0 <= a < b < |keys| ==> keys[a] != keys[b]
    requires forall a, b :: 0 <= a < b < |newKeys| ==> newKeys[a] != newKeys[b]
    requires forall j :: 0 <= j < |newKeys| ==> newKeys[j] !in d0
    requires Progress(d0, Data(cp), cp, keys, projected, cp.imageSize, newKeys, i, found, touched, now)
    requires m0.Keys == d0.Keys && forall mk :: mk in m0 ==> m0[mk] in pool
    requires forall mk :: mk in cp.mappings && mk in m0 ==> cp.mappings[mk] == m0[mk]
    modifies cp`mappings, pool`projectedPos, pool`position, pool`pointKey
    ensures Progress(d0, Data(cp), cp, keys, projected, cp.imageSize, newKeys, i + 1, found', touched', now)
    ensures cp.mappings == old(cp.mappings) || cp.mappings == old(cp.mappings) - {mk}
  {
    ghost var d := Data(cp);
    DataRestored(cp);
    OthersElsewhere(cp, k, pool, d0, m0, found, now);
    ghost var t;
    mk, t := DropOutOfFrame(cp, k, p, pool);
    ProgressOutOfFrame(d0, d, Data(cp), cp, keys, projected, cp.imageSize, newKeys, i, found, touched, now, mk, t);
    found', touched' := found, if t then touched[k := mk] else touched;
  }

  /** A suggested mapping whose point is not among the given point keys. */
  predicate Dangling(d: MappingData, points: set<string>)
  {
    d.suggested && d.pointKey !in points
  }

  /** The last loop of UpdateSuggestions: deletes every suggested mapping
      whose point no longer exists; every other mapping stays as it is. */
  method DropDangling(cp: CameraPhoto)
    requires cp.camera != null && cp.camera.site != null && cp.MappingsRestored()
    modifies cp`mappings
    ensures forall mk :: mk in cp.mappings <==>
              mk in old(cp.mappings) && !(old(cp.mappings)[mk].suggested && old(cp.mappings)[mk].pointKey !in cp.camera.site.points)
    ensures forall mk :: mk in cp.mappings ==> cp.mappings[mk] == old(cp.mappings)[mk]
  {
    ghost var m0 := cp.mappings;
    var todo := cp.mappings.Keys;
    while todo != {}
      invariant todo <= m0.Keys
      invariant forall mk :: mk in cp.mappings <==>
                  mk in m0 && (mk in todo || !(m0[mk].suggested && m0[mk].pointKey !in cp.camera.site.points))
      invariant forall mk :: mk in cp.mappings ==> cp.mappings[mk] == m0[mk]
      decreases |todo|
    {
      var mk :| mk in todo;
      DropIfDangling(cp, mk, m0);
      todo := todo - {mk};
    }
  }

  /** DropDangling, stated on the mapping data. */
  method DropDanglingData(cp: CameraPhoto)
    requires cp.camera != null && cp.camera.site != null && cp.MappingsRestored()
    modifies cp`mappings
    ensures forall mk :: mk in Data(cp) <==>
              mk in old(Data(cp)) && !Dangling(old(Data(cp))[mk], cp.camera.site.points.Keys)
    ensures forall mk :: mk in Data(cp) ==> Data(cp)[mk] == old(Data(cp))[mk]
    ensures forall mk :: mk in cp.mappings ==> cp.mappings[mk] == old(cp.mappings)[mk]
  {
    ghost var d0 := Data(cp);
    DropDangling(cp);
    forall mk | mk in old(cp.mappings)
      ensures d0[mk].suggested == old(cp.mappings)[mk].suggested
      ensures d0[mk].pointKey == old(cp.mappings)[mk].pointKey
    {
    }
  }

  /** One turn of the last loop: the mapping under mk is deleted when it
      is suggested and its point does not exist. */
  method DropIfDangling(cp: CameraPhoto, mk: string, ghost m0: map<string, CameraPhotoMapping>)
    requires cp.camera != null && cp.camera.site != null && mk in cp.mappings
    requires mk in m0 && m0[mk] == cp.mappings[mk] && m0[mk].key == mk && m0[mk].photo == cp
    modifies cp`mappings
    ensures cp.mappings == if m0[mk].suggested && m0[mk].pointKey !in cp.camera.site.points
                           then old(cp.mappings) - {mk} else old(cp.mappings)
  {
    var m := cp.mappings[mk];
    if m.suggested && m.pointKey !in cp.camera.site.points {
      m.Delete();
    }
  }

  /** What UpdateSuggestions promises about the mapping data before (d0)
      and after (d), for the points visited in the order keys with their
      projections. */
  predicate Outcome(d0: map<string, MappingData>, d: map<string, MappingData>, keys: seq<string>,
                    projected: seq<PixelCoordinate>, imageSize: PixelCoordinate, points: set<string>,
                    found: map<string, string>, touched: map<string, string>, now: int)
    requires |keys| == |projected|
  {
    // Every point projected into the image has a mapping recording that.
    Covered(d, keys, projected, imageSize, |keys|, found) &&
    // Every point projected outside the image lost its suggested mapping or
    // had the projection recorded in its user-placed one.
    Dropped(d0, d, keys, projected, imageSize, |keys|, touched) &&
    // User-placed mappings stay, with their point and their position.
    (forall mk :: mk in d0 && !d0[mk].suggested ==>
       mk in d && !d[mk].suggested && d[mk].pointKey == d0[mk].pointKey && d[mk].position == d0[mk].position) &&
    // Mappings that stay keep their creation time.
    (forall mk :: mk in d0 && mk in d ==> d[mk].createdAt == d0[mk].createdAt) &&
    // No suggested mapping refers to a point that does not exist.
    (forall mk :: mk in d ==> !Dangling(d[mk], points)) &&
    // Every new mapping is the suggested one found for its point, created now.
    Created(d0, d, found, now) &&
    // A mapping chosen for no point is kept as it was unless it dangles.
    (forall mk :: mk in d0 && (forall k :: k in found ==> found[k] != mk) &&
                  (forall k :: k in touched ==> touched[k] != mk) ==>
       (mk in d <==> !Dangling(d0[mk], points)) && (mk in d ==> d[mk] == d0[mk]))
  }

  /** The point loop followed by the removal of dangling mappings gives
      the outcome UpdateSuggestions promises. */
  lemma OutcomeOfUpdate(d0: map<string, MappingData>, d1: map<string, MappingData>, d2: map<string, MappingData>,
                        cp: CameraPhoto, keys: seq<string>, projected: seq<PixelCoordinate>,
                        imageSize: PixelCoordinate, newKeys: seq<string>, points: set<string>,
                        found: map<string, string>, touched: map<string, string>, now: int)
    requires |keys| == |projected|
    requires Progress(d0, d1, cp, keys, projected, imageSize, newKeys, |keys|, found, touched, now)
    requires forall j :: 0 <= j < |keys| ==> keys[j] in points
    requires forall mk :: mk in d2 <==> mk in d1 && !Dangling(d1[mk], points)
    requires forall mk :: mk in d2 ==> d2[mk] == d1[mk]
    ensures Outcome(d0, d2, keys, projected, imageSize, points, found, touched, now)
  {
    forall j | 0 <= j < |keys| && InFrame(projected[j], imageSize)
      ensures keys[j] in found && found[keys[j]] in d2 && Records(d2[found[keys[j]]], keys[j], projected[j])
    {
      assert d1[found[keys[j]]].pointKey == keys[j];
    }
    forall mk | mk in d0 && !d0[mk].suggested
      ensures mk in d2
    {
      assert mk in d1;
    }
    assert Dropped(d0, d2, keys, projected, imageSize, |keys|, touched) by {
      forall j | 0 <= j < |keys| && !InFrame(projected[j], imageSize) && keys[j] in touched &&
                 !d0[touched[keys[j]]].suggested
        ensures touched[keys[j]] in d2
      {
        assert touched[keys[j]] in d1;
      }
    }
  }

  /** The elements of a sequence without repetitions are as many as its
      length. */
  lemma {:induction false} DistinctCardinality(s: seq<string>)
    requires forall a, b :: 0 <= a < b < |s| ==> s[a] != s[b]
    ensures |set x | x in s| == |s|
  {
    if s != [] {
      var t := s[..|s| - 1];
      DistinctCardinality(t);
      assert (set x | x in s) == (set x | x in t) + {s[|s| - 1]};
      assert s[|s| - 1] !in (set x | x in t);
    }
  }

  /** CameraPhoto.UpdateSuggestions: collects the points and their world
      coordinates, projects them into the photo, creates, updates or
      deletes the suggested mappings point by point and finally deletes
      the suggested mappings of points that no longer exist. newKeys[i] is
      the key the generator hands out when the i-th point visited needs a
      new mapping. The visiting order, the projections and the mapping
      chosen for each point are returned as ghosts. */
  method UpdateSuggestions(n: Numerics, cp: CameraPhoto, newKeys: seq<string>, now: int)
      returns (ghost keys: seq<string>, ghost projected: seq<PixelCoordinate>,
               ghost found: map<string, string>, ghost touched: map<string, string>)
    requires cp.camera != null && cp.camera.site != null && cp.camera.site.hasIdGen
    requires cp.MappingsRestored() && cp.camera.site.PointsRestored()
    requires |newKeys| >= |cp.camera.site.points|
    requires forall a, b :: 0 <= a < b < |newKeys| ==> newKeys[a] != newKeys[b]
    requires forall j :: 0 <= j < |newKeys| ==> newKeys[j] !in cp.mappings
    modifies cp`mappings, cp.mappings.Values`projectedPos, cp.mappings.Values`position, cp.mappings.Values`pointKey
    ensures forall k :: k in cp.camera.site.points <==> k in keys
    ensures forall a, b :: 0 <= a < b < |keys| ==> keys[a] != keys[b]
    ensures |projected| == |keys| && forall j :: 0 <= j < |keys| ==> projected[j] == old(Projection(n, cp, keys[j]))
    ensures Outcome(old(Data(cp)), Data(cp), keys, projected, cp.imageSize, cp.camera.site.points.Keys, found, touched, now)
    ensures cp.MappingsRestored()
    ensures forall mk :: mk in cp.mappings && mk in old(cp.mappings) ==> cp.mappings[mk] == old(cp.mappings)[mk]
    ensures forall mk :: mk in cp.mappings && mk !in old(cp.mappings) ==>
              fresh(cp.mappings[mk])
  {
    ghost var d0 := Data(cp);
    var points, projectedCoordinates;
    points, projectedCoordinates, keys := ProjectPoints(n, cp);
    projected := projectedCoordinates;
    found, touched := ApplySuggestions(cp, points, projectedCoordinates, newKeys, now, keys, d0);
  }

  /** The first part of UpdateSuggestions: the points of the site in map
      order and their projections into the photo. */
  method ProjectPoints(n: Numerics, cp: CameraPhoto)
      returns (points: seq<Point>, projected: seq<PixelCoordinate>, ghost keys: seq<string>)
    requires cp.camera != null && cp.camera.site != null && cp.camera.site.PointsRestored()
    ensures |points| == |projected| == |keys| == |cp.camera.site.points|
    ensures forall k :: k in cp.camera.site.points <==> k in keys
    ensures forall a, b :: 0 <= a < b < |keys| ==> keys[a] != keys[b]
    ensures forall j :: 0 <= j < |keys| ==> points[j].key == keys[j] && projected[j] == Projection(n, cp, keys[j])
  {
    var site := cp.camera.site;
    var world;
    points, world, keys := PointsInMapOrder(site);
    projected := ProjectAll(n, Residuals.PoseOf(cp), world);
    DistinctCardinality(keys);
    assert (set x | x in keys) == site.points.Keys;
  }

  /** The two loops of UpdateSuggestions that change the mappings, for the
      points in the order they are visited and their projections. */
  method ApplySuggestions(cp: CameraPhoto, points: seq<Point>, projected: seq<PixelCoordinate>,
                          newKeys: seq<string>, now: int, ghost keys: seq<string>,
                          ghost d0: map<string, MappingData>)
      returns (ghost found: map<string, string>, ghost touched: map<string, string>)
    requires cp.camera != null && cp.camera.site != null && cp.camera.site.hasIdGen
    requires cp.MappingsRestored()
    requires |points| == |keys| == |projected| <= |newKeys|
    requires forall j :: 0 <= j < |points| ==> points[j].key == keys[j] && keys[j] in cp.camera.site.points
    requires forall a, b :: 0 <= a < b < |keys| ==> keys[a] != keys[b]
    requires forall a, b :: 0 <= a < b < |newKeys| ==> newKeys[a] != newKeys[b]
    requires forall j :: 0 <= j < |newKeys| ==> newKeys[j] !in cp.mappings
    requires d0 == Data(cp)
    modifies cp`mappings, cp.mappings.Values`projectedPos, cp.mappings.Values`position, cp.mappings.Values`pointKey
    ensures Outcome(d0, Data(cp), keys, projected, cp.imageSize, cp.camera.site.points.Keys, found, touched, now)
    ensures cp.MappingsRestored()
    ensures forall mk :: mk in cp.mappings && mk in old(cp.mappings) ==> cp.mappings[mk] == old(cp.mappings)[mk]
    ensures forall mk :: mk in cp.mappings && mk !in old(cp.mappings) ==>
              fresh(cp.mappings[mk])
  {
    found, touched := ProcessPoints(cp, points, projected, newKeys, now, keys, cp.mappings.Values);
    ghost var d1 := Data(cp);
    DataRestored(cp);
    DropDanglingData(cp);
    OutcomeOfUpdate(d0, d1, Data(cp), cp, keys, projected, cp.imageSize, newKeys, cp.camera.site.points.Keys, found, touched, now);
    DataRestored(cp);
  }
}
