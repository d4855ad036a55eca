/** obj-export.go: the site's points and rangefinder measurements as a
    Wavefront OBJ text. Every point becomes a geometric vertex statement
    `v x y z`, numbered from 1 in the order the points are visited; every
    rangefinder measurement whose two end points are both known points
    becomes a line element `l i j` over their vertex numbers.

    Go visits maps in an unspecified order; the method picks keys with
    `:|` and reports the order it used. Number formatting (`%f` for the
    coordinates, `%d` for the vertex numbers) is a parameter. */
module ObjExport {
  import opened Coordinates
  import opened Survey
  import opened Flattening

  const PointsHeader := "#List of points\n"
  const MeasurementsHeader := "\n#List of rangefinder measurements\n"

  /** A piece of text without blanks or line breaks, as `%f` and `%d`
      produce. */
  predicate Plain(s: string)
  {
    forall i :: 0 <= i < |s| ==> s[i] != ' ' && s[i] != '\n'
  }

  /** The vertex statement of one point. */
  function VertexLine(fmt: real -> string, c: Coordinate): string
  {
    "v " + (fmt(c.x) + (" " + (fmt(c.y) + (" " + (fmt(c.z) + "\n")))))
  }

  /** The vertex statements of the positions, in order. */
  function Vertices(fmt: real -> string, cs: seq<Coordinate>): string
  {
    if cs == [] then "" else Vertices(fmt, cs[..|cs| - 1]) + VertexLine(fmt, cs[|cs| - 1])
  }

  /** The positions of the points under keys, in that order. */
  function Positions(m: map<string, Point>, keys: seq<string>): (r: seq<Coordinate>)
    requires forall i :: 0 <= i < |keys| ==> keys[i] in m
    reads m.Values`position
    ensures |r| == |keys| && forall i :: 0 <= i < |keys| ==> r[i] == m[keys[i]].position
  {
    if keys == [] then [] else Positions(m, keys[..|keys| - 1]) + [m[keys[|keys| - 1]].position]
  }

  /** The vertex number of every listed key: its position in keys, counted
      from 1 (IndexedKeys, IndexedNumbers). */
  function Indexed(keys: seq<string>): (r: map<string, int>)
    ensures forall k :: k in r ==> 1 <= r[k] <= |keys|
  {
    if keys == [] then map[]
    else
      var n := |keys| - 1;
      Indexed(keys[..n])[keys[n] := n + 1]
  }

  /** The vertex pairs of the measurements with end points ends, skipping
      every measurement with an end point that is not a vertex. */
  function Segments(indices: map<string, int>, ends: seq<(string, string)>): seq<(int, int)>
  {
    if ends == [] then []
    else
      var n := |ends| - 1;
      var e := ends[n];
      Segments(indices, ends[..n]) + (if e.0 in indices && e.1 in indices then [(indices[e.0], indices[e.1])] else [])
  }

  /** The line element of one vertex pair. */
  function SegmentLine(dec: int -> string, s: (int, int)): string
  {
    "l " + dec(s.0) + " " + dec(s.1) + "\n"
  }

  function SegmentLines(dec: int -> string, ss: seq<(int, int)>): string
  {
    if ss == [] then "" else SegmentLines(dec, ss[..|ss| - 1]) + SegmentLine(dec, ss[|ss| - 1])
  }

  /** The whole export for the points visited in the order keys, at the
      given positions, and the measurements visited with end points ends. */
  function ObjText(fmt: real -> string, dec: int -> string, keys: seq<string>, positions: seq<Coordinate>,
                   ends: seq<(string, string)>): (r: string)
    ensures PointsHeader <= r
  {
    PointsHeader + Vertices(fmt, positions) + MeasurementsHeader + SegmentLines(dec, Segments(Indexed(keys), ends))
  }

  /** The measurement under pair.1 of the rangefinder under pair.0. */
  function MeasurementAt(m: map<string, Rangefinder>, pair: (string, string)): RangefinderMeasurement
    requires pair.0 in m && pair.1 in m[pair.0].measurements
    reads m.Values`measurements
  {
    m[pair.0].measurements[pair.1]
  }

  /** The (rangefinder key, measurement key) pairs of the rangefinders
      under rks. */
  ghost function PairsOf(m: map<string, Rangefinder>, rks: set<string>): set<(string, string)>
    reads m.Values`measurements
  {
    set rk, mk | rk in rks && rk in m && mk in m[rk].measurements :: (rk, mk)
  }

  /** pairs names every measurement in chosen exactly once, and ends holds
      their end points in the same order. */
  ghost predicate Visits(m: map<string, Rangefinder>, chosen: set<(string, string)>,
                         pairs: seq<(string, string)>, ends: seq<(string, string)>)
    reads m.Values`measurements, set rk, mk | rk in m && mk in m[rk].measurements :: m[rk].measurements[mk]
  {
    |ends| == |pairs| &&
    (forall i :: 0 <= i < |pairs| ==>
       pairs[i] in chosen && pairs[i].0 in m && pairs[i].1 in m[pairs[i].0].measurements &&
       ends[i] == (MeasurementAt(m, pairs[i]).p1, MeasurementAt(m, pairs[i]).p2)) &&
    (forall p :: p in chosen ==> p in pairs) &&
    (forall i, j :: 0 <= i < j < |pairs| ==> pairs[i] != pairs[j])
  }

  /** pairs names every measurement of every rangefinder in m exactly
      once, and ends holds their end points in the same order. */
  ghost predicate MeasurementsVisited(m: map<string, Rangefinder>, pairs: seq<(string, string)>, ends: seq<(string, string)>)
    reads m.Values`measurements, set rk, mk | rk in m && mk in m[rk].measurements :: m[rk].measurements[mk]
  {
    Visits(m, PairsOf(m, m.Keys), pairs, ends)
  }

  /** The pairs of one more rangefinder. */
  lemma PairsOfOneMore(m: map<string, Rangefinder>, done: set<string>, rk: string)
    requires rk in m
    ensures PairsOf(m, done + {rk}) == PairsOf(m, done) + VisitedOf(m, rk, {})
  {
  }

  /** Visiting one more measurement, not visited before, at the end. */
  lemma VisitsOneMore(m: map<string, Rangefinder>, chosen: set<(string, string)>,
                      pairs: seq<(string, string)>, ends: seq<(string, string)>, p: (string, string))
    requires Visits(m, chosen, pairs, ends)
    requires p !in chosen && p.0 in m && p.1 in m[p.0].measurements
    ensures Visits(m, chosen + {p}, pairs + [p], ends + [(MeasurementAt(m, p).p1, MeasurementAt(m, p).p2)])
  {
  }

  lemma VerticesOneMore(fmt: real -> string, cs: seq<Coordinate>, c: Coordinate)
    ensures Vertices(fmt, cs + [c]) == Vertices(fmt, cs) + VertexLine(fmt, c)
  {
    assert (cs + [c])[..|cs|] == cs;
  }

  lemma PositionsOneMore(m: map<string, Point>, keys: seq<string>, k: string)
    requires (forall i :: 0 <= i < |keys| ==> keys[i] in m) && k in m
    ensures Positions(m, keys + [k]) == Positions(m, keys) + [m[k].position]
  {
    assert (keys + [k])[..|keys|] == keys;
  }

  lemma SegmentsOneMore(indices: map<string, int>, ends: seq<(string, string)>, e: (string, string))
    ensures Segments(indices, ends + [e]) ==
            Segments(indices, ends) + (if e.0 in indices && e.1 in indices then [(indices[e.0], indices[e.1])] else [])
  {
    assert (ends + [e])[..|ends|] == ends;
  }

  lemma SegmentLinesOneMore(dec: int -> string, ss: seq<(int, int)>, extra: seq<(int, int)>)
    requires |extra| <= 1
    ensures SegmentLines(dec, ss + extra) == SegmentLines(dec, ss) + (if extra == [] then "" else SegmentLine(dec, extra[0]))
  {
    if extra != [] {
      assert (ss + extra)[..|ss|] == ss;
    } else {
      assert ss + extra == ss;
    }
  }

  /** The state of ListPoints' loop: the points under keys have been
      written in that order and numbered, those under todo are still to
      come. */
  ghost predicate PointsListed(points: map<string, Point>, fmt: real -> string, todo: set<string>,
                               keys: seq<string>, indices: map<string, int>, text: string)
    reads points.Values`position
  {
    todo <= points.Keys &&
    multiset(keys) + multiset(todo) == multiset(points.Keys) &&
    (forall i :: 0 <= i < |keys| ==> keys[i] in points && keys[i] !in todo) &&
    indices == Indexed(keys) &&
    text == Vertices(fmt, Positions(points, keys))
  }

  /** ListPoints' loop body keeps its state. */
  lemma PointsListedOneMore(points: map<string, Point>, fmt: real -> string, todo: set<string>,
                            keys: seq<string>, indices: map<string, int>, text: string, key: string)
    requires PointsListed(points, fmt, todo, keys, indices, text) && key in todo
    ensures PointsListed(points, fmt, todo - {key}, keys + [key], indices[key := |keys| + 1],
                         text + VertexLine(fmt, points[key].position))
  {
    VertexTextOneMore(points, fmt, keys, key);
    assert (keys + [key])[..|keys|] == keys;
    assert multiset(todo) == multiset(todo - {key}) + multiset{key};
  }

  lemma VertexTextOneMore(points: map<string, Point>, fmt: real -> string, keys: seq<string>, key: string)
    requires (forall i :: 0 <= i < |keys| ==> keys[i] in points) && key in points
    ensures Vertices(fmt, Positions(points, keys + [key])) ==
            Vertices(fmt, Positions(points, keys)) + VertexLine(fmt, points[key].position)
  {
    PositionsOneMore(points, keys, key);
    VerticesOneMore(fmt, Positions(points, keys), points[key].position);
  }

  /** obj-export.go:21-32: the vertex statements, one per point, and the
      vertex number of every point. */
  method ListPoints(points: map<string, Point>, fmt: real -> string)
      returns (text: string, indices: map<string, int>, ghost keys: seq<string>)
    ensures Listing(keys, points) && forall i :: 0 <= i < |keys| ==> keys[i] in points
    ensures indices == Indexed(keys)
    ensures text == Vertices(fmt, Positions(points, keys))
  {
    text := "";
    indices := map[];
    var counter := 1;
    keys := [];
    var todo := points.Keys;
    while todo != {}
      invariant PointsListed(points, fmt, todo, keys, indices, text)
      invariant counter == |keys| + 1
      decreases |todo|
    {
      var key :| key in todo;
      var point := points[key];
      PointsListedOneMore(points, fmt, todo, keys, indices, text, key);
      indices := indices[key := counter];
      counter := counter + 1;
      text := text + VertexLine(fmt, point.position);
      keys := keys + [key];
      todo := todo - {key};
    }
  }

  /** The measurement pairs of rk whose measurement keys are not under
      todo. */
  ghost function VisitedOf(m: map<string, Rangefinder>, rk: string, todo: set<string>): set<(string, string)>
    requires rk in m
    reads m.Values`measurements
  {
    set mk | mk in m[rk].measurements && mk !in todo :: (rk, mk)
  }

  /** The state of ListRangefinder's loop: the measurements of rk not under
      mtodo have been visited after those of the rangefinders under done,
      and text holds the line elements they added. */
  ghost predicate RangefinderListed(m: map<string, Rangefinder>, rk: string, indices: map<string, int>, dec: int -> string,
                                    done: set<string>, ends0: seq<(string, string)>, mtodo: set<string>,
                                    pairs: seq<(string, string)>, ends: seq<(string, string)>, text: string)
    requires rk in m
    reads m.Values`measurements, set rk, mk | rk in m && mk in m[rk].measurements :: m[rk].measurements[mk]
  {
    Visits(m, PairsOf(m, done) + VisitedOf(m, rk, mtodo), pairs, ends) &&
    SegmentLines(dec, Segments(indices, ends)) == SegmentLines(dec, Segments(indices, ends0)) + text
  }

  /** ListRangefinder's loop body keeps its state. */
  lemma RangefinderListedOneMore(m: map<string, Rangefinder>, rk: string, indices: map<string, int>, dec: int -> string,
                                 done: set<string>, ends0: seq<(string, string)>, mtodo: set<string>,
                                 pairs: seq<(string, string)>, ends: seq<(string, string)>, text: string, mk: string)
    requires rk in m && rk !in done && mk in m[rk].measurements && mk in mtodo
    requires RangefinderListed(m, rk, indices, dec, done, ends0, mtodo, pairs, ends, text)
    ensures var e := (MeasurementAt(m, (rk, mk)).p1, MeasurementAt(m, (rk, mk)).p2);
            RangefinderListed(m, rk, indices, dec, done, ends0, mtodo - {mk}, pairs + [(rk, mk)], ends + [e],
                              text + if e.0 in indices && e.1 in indices then SegmentLine(dec, (indices[e.0], indices[e.1])) else "")
  {
    var e := (MeasurementAt(m, (rk, mk)).p1, MeasurementAt(m, (rk, mk)).p2);
    SegmentTextOneMore(indices, dec, ends0, ends, text, e);
    VisitsOneMore(m, PairsOf(m, done) + VisitedOf(m, rk, mtodo), pairs, ends, (rk, mk));
    ChosenOneMore(m, done, rk, mtodo, mk);
  }

  lemma SegmentTextOneMore(indices: map<string, int>, dec: int -> string, ends0: seq<(string, string)>,
                           ends: seq<(string, string)>, text: string, e: (string, string))
    requires SegmentLines(dec, Segments(indices, ends)) == SegmentLines(dec, Segments(indices, ends0)) + text
    ensures SegmentLines(dec, Segments(indices, ends + [e])) == SegmentLines(dec, Segments(indices, ends0)) +
              (text + if e.0 in indices && e.1 in indices then SegmentLine(dec, (indices[e.0], indices[e.1])) else "")
  {
    SegmentsOneMore(indices, ends, e);
    SegmentLinesOneMore(dec, Segments(indices, ends),
                        if e.0 in indices && e.1 in indices then [(indices[e.0], indices[e.1])] else []);
  }

  lemma ChosenOneMore(m: map<string, Rangefinder>, done: set<string>, rk: string, mtodo: set<string>, mk: string)
    requires rk in m && mk in m[rk].measurements
    ensures PairsOf(m, done) + VisitedOf(m, rk, mtodo) + {(rk, mk)} == PairsOf(m, done) + VisitedOf(m, rk, mtodo - {mk})
  {
  }

  /** obj-export.go:36-44 for one rangefinder: the line elements of its
      measurements, appended to what the earlier rangefinders gave. */
  method ListRangefinder(m: map<string, Rangefinder>, rk: string, indices: map<string, int>, dec: int -> string,
                         ghost done: set<string>, ghost pairs0: seq<(string, string)>, ghost ends0: seq<(string, string)>)
      returns (text: string, ghost pairs: seq<(string, string)>, ghost ends: seq<(string, string)>)
    requires rk in m && rk !in done
    requires Visits(m, PairsOf(m, done), pairs0, ends0)
    ensures Visits(m, PairsOf(m, done + {rk}), pairs, ends)
    ensures SegmentLines(dec, Segments(indices, ends)) == SegmentLines(dec, Segments(indices, ends0)) + text
  {
    text := "";
    pairs, ends := pairs0, ends0;
    var rangefinder := m[rk];
    var mtodo := rangefinder.measurements.Keys;
    assert VisitedOf(m, rk, mtodo) == {};
    while mtodo != {}
      invariant mtodo <= rangefinder.measurements.Keys
      invariant RangefinderListed(m, rk, indices, dec, done, ends0, mtodo, pairs, ends, text)
      decreases |mtodo|
    {
      var mk :| mk in mtodo;
      var measurement := rangefinder.measurements[mk];
      RangefinderListedOneMore(m, rk, indices, dec, done, ends0, mtodo, pairs, ends, text, mk);
      if measurement.p1 in indices && measurement.p2 in indices {
        var indexP1, indexP2 := indices[measurement.p1], indices[measurement.p2];
        text := text + SegmentLine(dec, (indexP1, indexP2));
      } else {
        text := text + "";
      }
      ends := ends + [(measurement.p1, measurement.p2)];
      pairs := pairs + [(rk, mk)];
      mtodo := mtodo - {mk};
    }
    PairsOfOneMore(m, done, rk);
  }

  /** obj-export.go:34-45: the line elements of every measurement whose end
      points are both vertices. */
  method ListMeasurements(m: map<string, Rangefinder>, indices: map<string, int>, dec: int -> string)
      returns (text: string, ghost pairs: seq<(string, string)>, ghost ends: seq<(string, string)>)
    ensures MeasurementsVisited(m, pairs, ends)
    ensures text == SegmentLines(dec, Segments(indices, ends))
  {
    text := "";
    pairs, ends := [], [];
    ghost var done: set<string> := {};
    var rtodo := m.Keys;
    while rtodo != {}
      invariant rtodo <= m.Keys && done == m.Keys - rtodo
      invariant Visits(m, PairsOf(m, done), pairs, ends)
      invariant text == SegmentLines(dec, Segments(indices, ends))
      decreases |rtodo|
    {
      var rk :| rk in rtodo;
      var more;
      more, pairs, ends := ListRangefinder(m, rk, indices, dec, done, pairs, ends);
      text := text + more;
      done := done + {rk};
      rtodo := rtodo - {rk};
    }
  }

  /** obj-export.go: generateObj. */
  method GenerateObj(s: Site, fmt: real -> string, dec: int -> string)
      returns (result: string, ghost keys: seq<string>, ghost pairs: seq<(string, string)>, ghost ends: seq<(string, string)>)
    ensures Listing(keys, s.points) && forall i :: 0 <= i < |keys| ==> keys[i] in s.points
    ensures MeasurementsVisited(s.rangefinders, pairs, ends)
    ensures result == ObjText(fmt, dec, keys, Positions(s.points, keys), ends)
  {
    var vertices, indices;
    vertices, indices, keys := ListPoints(s.points, fmt);
    var segments;
    segments, pairs, ends := ListMeasurements(s.rangefinders, indices, dec);
    result := PointsHeader + vertices + MeasurementsHeader + segments;
  }

  // ---------------------------------------------------------------- Properties of the export

  /** A listing of a map's keys names no key twice. */
  lemma ListingDistinct<T>(keys: seq<string>, m: map<string, T>)
    requires Listing(keys, m)
    ensures forall i, j :: 0 <= i < j < |keys| ==> keys[i] != keys[j]
  {
    forall i, j | 0 <= i < j < |keys|
      ensures keys[i] != keys[j]
    {
      TwiceCounted(keys, i, j);
      assert multiset(m.Keys)[keys[i]] <= 1;
    }
  }

  /** A key at two places of a sequence counts twice in its multiset. */
  lemma TwiceCounted(keys: seq<string>, i: int, j: int)
    requires 0 <= i < j < |keys|
    ensures keys[i] == keys[j] ==> multiset(keys)[keys[i]] >= 2
  {
    var k := keys[i];
    assert keys == keys[..j] + keys[j..];
    assert keys[..j][i] == k && keys[j..][0] == keys[j];
    assert multiset(keys)[k] == multiset(keys[..j])[k] + multiset(keys[j..])[k];
  }

  /** obj-export.go:23-29: the points visited in the order keys are
      numbered 1, 2, ... in that order, and every point of the site gets
      exactly one number. */
  lemma PointsNumbered<T>(keys: seq<string>, m: map<string, T>)
    requires Listing(keys, m)
    ensures Indexed(keys).Keys == m.Keys
    ensures forall i :: 0 <= i < |keys| ==> keys[i] in Indexed(keys) && Indexed(keys)[keys[i]] == i + 1
    ensures forall k :: k in m ==> 1 <= Indexed(keys)[k] <= |keys| == |m|
  {
    ListingDistinct(keys, m);
    ListingKeys(keys, m);
    IndexedKeys(keys);
    IndexedNumbers(keys);
    forall k | k in m
      ensures k in Indexed(keys)
    {
      assert k in multiset(keys);
    }
    assert |keys| == |multiset(keys)| == |multiset(m.Keys)| == |m.Keys|;
  }

  /** obj-export.go:32-42: there is at most one line element per
      measurement, and exactly one per measurement when every end point is
      a vertex. */
  lemma {:induction false} SegmentsCount(indices: map<string, int>, ends: seq<(string, string)>)
    ensures |Segments(indices, ends)| <= |ends|
    ensures |Segments(indices, ends)| == |ends| <==>
              forall j :: 0 <= j < |ends| ==> ends[j].0 in indices && ends[j].1 in indices
  {
    if ends != [] {
      var n := |ends| - 1;
      SegmentsCount(indices, ends[..n]);
      if ends[n].0 in indices && ends[n].1 in indices {
        if forall j :: 0 <= j < n ==> ends[..n][j].0 in indices && ends[..n][j].1 in indices {
          assert forall j :: 0 <= j < |ends| ==> ends[j].0 in indices && ends[j].1 in indices;
        }
      }
    }
  }

  /** obj-export.go:34-39: every measurement whose end points are both
      vertices gives a line element joining their vertex numbers. */
  lemma {:induction false} SegmentsComplete(indices: map<string, int>, ends: seq<(string, string)>)
    ensures forall j :: 0 <= j < |ends| && ends[j].0 in indices && ends[j].1 in indices ==>
              (indices[ends[j].0], indices[ends[j].1]) in Segments(indices, ends)
  {
    if ends != [] {
      var n := |ends| - 1;
      SegmentsComplete(indices, ends[..n]);
      forall j | 0 <= j < n && ends[j].0 in indices && ends[j].1 in indices
        ensures (indices[ends[j].0], indices[ends[j].1]) in Segments(indices, ends)
      {
        assert ends[..n][j] == ends[j];
      }
    }
  }

  /** obj-export.go:34-39: every line element comes from a measurement
      whose end points are both vertices, and joins their vertex numbers. */
  lemma {:induction false} SegmentsSound(indices: map<string, int>, ends: seq<(string, string)>)
    ensures forall sg :: sg in Segments(indices, ends) ==>
              exists j :: 0 <= j < |ends| && ends[j].0 in indices && ends[j].1 in indices &&
                          sg == (indices[ends[j].0], indices[ends[j].1])
  {
    if ends != [] {
      var n := |ends| - 1;
      SegmentsSound(indices, ends[..n]);
      forall sg | sg in Segments(indices, ends)
        ensures exists j :: 0 <= j < |ends| && ends[j].0 in indices && ends[j].1 in indices &&
                            sg == (indices[ends[j].0], indices[ends[j].1])
      {
        if sg in Segments(indices, ends[..n]) {
          var j :| 0 <= j < n && ends[..n][j].0 in indices && ends[..n][j].1 in indices &&
                   sg == (indices[ends[..n][j].0], indices[ends[..n][j].1]);
          assert ends[..n][j] == ends[j];
        } else {
          assert ends[n].0 in indices && ends[n].1 in indices;
        }
      }
    }
  }

  /** obj-export.go:32-42: every line element of the export names two
      vertices, 1 to the number of points, and joins the two points of a
      measurement. */
  lemma {:induction false} SegmentsJoinMeasuredPoints(keys: seq<string>, ends: seq<(string, string)>)
    requires forall i, j :: 0 <= i < j < |keys| ==> keys[i] != keys[j]
    ensures forall sg :: sg in Segments(Indexed(keys), ends) ==>
              1 <= sg.0 <= |keys| && 1 <= sg.1 <= |keys| &&
              exists j :: 0 <= j < |ends| && ends[j].0 == keys[sg.0 - 1] && ends[j].1 == keys[sg.1 - 1]
  {
    if ends != [] {
      var n := |ends| - 1;
      var indices := Indexed(keys);
      var e := ends[n];
      SegmentsJoinMeasuredPoints(keys, ends[..n]);
      if e.0 in indices && e.1 in indices {
        JoinedEnds(keys, e);
      }
      forall sg | sg in Segments(indices, ends)
        ensures 1 <= sg.0 <= |keys| && 1 <= sg.1 <= |keys| &&
                exists j :: 0 <= j < |ends| && ends[j].0 == keys[sg.0 - 1] && ends[j].1 == keys[sg.1 - 1]
      {
        if sg in Segments(indices, ends[..n]) {
          var j :| 0 <= j < n && ends[..n][j].0 == keys[sg.0 - 1] && ends[..n][j].1 == keys[sg.1 - 1];
          assert ends[..n][j] == ends[j];
        } else {
          assert ends[n].0 == keys[sg.0 - 1] && ends[n].1 == keys[sg.1 - 1];
        }
      }
    }
  }

  /** The vertex numbers of two listed keys lead back to the keys. */
  lemma JoinedEnds(keys: seq<string>, e: (string, string))
    requires forall i, j :: 0 <= i < j < |keys| ==> keys[i] != keys[j]
    requires e.0 in Indexed(keys) && e.1 in Indexed(keys)
    ensures 1 <= Indexed(keys)[e.0] <= |keys| && 1 <= Indexed(keys)[e.1] <= |keys|
    ensures keys[Indexed(keys)[e.0] - 1] == e.0 && keys[Indexed(keys)[e.1] - 1] == e.1
  {
    IndexedAt(keys, e.0);
    IndexedAt(keys, e.1);
  }

  /** The vertex number of a listed key leads back to the key. */
  lemma IndexedAt(keys: seq<string>, k: string)
    requires forall i, j :: 0 <= i < j < |keys| ==> keys[i] != keys[j]
    requires k in Indexed(keys)
    ensures 1 <= Indexed(keys)[k] <= |keys| && keys[Indexed(keys)[k] - 1] == k
  {
    IndexedKeys(keys);
    IndexedNumbers(keys);
    var i :| 0 <= i < |keys| && keys[i] == k;
  }

  /** Exactly the listed keys are numbered. */
  lemma {:induction false} IndexedKeys(keys: seq<string>)
    ensures Indexed(keys).Keys == set i | 0 <= i < |keys| :: keys[i]
  {
    if keys != [] {
      var n := |keys| - 1;
      IndexedKeys(keys[..n]);
      forall k | k in Indexed(keys)
        ensures k in set i | 0 <= i < |keys| :: keys[i]
      {
        if k != keys[n] {
          var i :| 0 <= i < n && keys[..n][i] == k;
          assert keys[i] == k;
        }
      }
      forall i | 0 <= i < |keys|
        ensures keys[i] in Indexed(keys)
      {
        if i < n {
          assert keys[..n][i] == keys[i];
        }
      }
    }
  }

  /** A listing without repetitions numbers its keys 1 to |keys| in order. */
  lemma {:induction false} IndexedNumbers(keys: seq<string>)
    requires forall i, j :: 0 <= i < j < |keys| ==> keys[i] != keys[j]
    ensures forall i :: 0 <= i < |keys| ==> keys[i] in Indexed(keys) && Indexed(keys)[keys[i]] == i + 1
  {
    if keys != [] {
      var n := |keys| - 1;
      IndexedNumbers(keys[..n]);
      forall i | 0 <= i < n
        ensures keys[i] in Indexed(keys) && Indexed(keys)[keys[i]] == i + 1
      {
        assert keys[..n][i] == keys[i];
      }
    }
  }

  /** Text that holds blank-free a and b, each followed by a blank, splits
      at that blank in the same place. */
  lemma SplitAtBlank(a: string, b: string, r1: string, r2: string)
    requires Plain(a) && Plain(b) && a + (" " + r1) == b + (" " + r2)
    ensures a == b && r1 == r2
  {
    BlankEndsPlain(a, r1, b, r2);
    BlankEndsPlain(b, r2, a, r1);
    var t := a + (" " + r1);
    assert a == t[..|a|] && b == t[..|b|];
    assert r1 == t[|a| + 1..] && r2 == t[|b| + 1..];
  }

  /** A blank cannot fall inside blank-free text. */
  lemma BlankEndsPlain(a: string, r1: string, b: string, r2: string)
    requires Plain(b)
    ensures |a| < |b| ==> a + (" " + r1) != b + (" " + r2)
  {
    if |a| < |b| {
      assert (a + (" " + r1))[|a|] == ' ';
      assert (b + (" " + r2))[|a|] == b[|a|];
    }
  }

  /** obj-export.go:28: as long as the formatted numbers hold no blanks or
      line breaks, two vertex statements are equal exactly when their three
      formatted components are. */
  lemma VertexLineInjective(fmt: real -> string, c1: Coordinate, c2: Coordinate)
    requires forall r :: Plain(fmt(r))
    ensures VertexLine(fmt, c1) == VertexLine(fmt, c2) <==>
              fmt(c1.x) == fmt(c2.x) && fmt(c1.y) == fmt(c2.y) && fmt(c1.z) == fmt(c2.z)
  {
    if VertexLine(fmt, c1) == VertexLine(fmt, c2) {
      var l1, l2 := VertexLine(fmt, c1), VertexLine(fmt, c2);
      var t1, t2 := fmt(c1.x) + (" " + (fmt(c1.y) + (" " + (fmt(c1.z) + "\n")))),
                    fmt(c2.x) + (" " + (fmt(c2.y) + (" " + (fmt(c2.z) + "\n"))));
      assert l1 == "v " + t1 && l2 == "v " + t2;
      assert t1 == l1[2..] && t2 == l2[2..];
      SplitAtBlank(fmt(c1.x), fmt(c2.x), fmt(c1.y) + (" " + (fmt(c1.z) + "\n")), fmt(c2.y) + (" " + (fmt(c2.z) + "\n")));
      SplitAtBlank(fmt(c1.y), fmt(c2.y), fmt(c1.z) + "\n", fmt(c2.z) + "\n");
      assert fmt(c1.z) == (fmt(c1.z) + "\n")[..|fmt(c1.z)|];
      assert fmt(c2.z) == (fmt(c2.z) + "\n")[..|fmt(c2.z)|];
    }
  }

  // ---------------------------------------------------------------- The vertex statement as written

  /** obj-export.go:28 as written: the arguments point.Position.X,
      point.Position.Y and point.Position.Z are the method values of
      Coordinate's accessors, never called. `%f` cannot format a function,
      so each slot receives Go's bad-verb text for a func value, which
      depends on the accessor (bad) but not on the point. */
  function VertexLineAsWritten(bad: Axis -> string, c: Coordinate): string
  {
    "v " + (bad(X) + (" " + (bad(Y) + (" " + (bad(Z) + "\n")))))
  }

  /** As written, the points (0,0,0) and (1,0,0) get the same vertex
      statement; with the accessors called, any number format that tells 0
      and 1 apart tells the two statements apart. */
  lemma VertexLineAsWrittenLosesPosition(bad: Axis -> string, fmt: real -> string)
    requires forall r :: Plain(fmt(r))
    requires fmt(0.0) != fmt(1.0)
    ensures VertexLineAsWritten(bad, Coordinate(0.0, 0.0, 0.0)) == VertexLineAsWritten(bad, Coordinate(1.0, 0.0, 0.0))
    ensures VertexLine(fmt, Coordinate(0.0, 0.0, 0.0)) != VertexLine(fmt, Coordinate(1.0, 0.0, 0.0))
  {
    VertexLineInjective(fmt, Coordinate(0.0, 0.0, 0.0), Coordinate(1.0, 0.0, 0.0));
  }
}
