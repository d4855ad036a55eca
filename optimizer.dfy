/** optimizer.go: reading and writing the fields the optimizer may change,
    the objective function handed to the least-squares solver, and
    Optimize, which runs the solver on a site and writes its solution
    back. The solver itself is an oracle passed in as a function. */
module Optimizer {
  import opened Wrappers
  import opened Floats
  import opened Coordinates
  import opened PixelCoordinates
  import opened Numerics
  import opened Survey
  import opened Flattening
  import Angles
  import Residuals

  // ---------------------------------------------------------------- Tweakable fields

  /** Component axis of a pixel coordinate (the image centre). */
  function PixelAt(p: PixelCoordinate, axis: Axis): (r: real)
    ensures axis == X ==> r == p.x
    ensures axis == Y ==> r == p.y
    ensures axis == Z ==> r == p.z
  {
    match axis
    case X => p.x
    case Y => p.y
    case Z => p.z
  }

  /** The same pixel coordinate with one component replaced. */
  function PixelWith(p: PixelCoordinate, axis: Axis, v: real): (r: PixelCoordinate)
    ensures PixelAt(r, axis) == v
    ensures forall other: Axis :: other != axis ==> PixelAt(r, other) == PixelAt(p, other)
  {
    match axis
    case X => p.(x := v)
    case Y => p.(y := v)
    case Z => p.(z := v)
  }

  /** The tweakable is an Angle, whose SetTweakableValue normalizes: the
      angle of view of a camera and the components of a photo's
      orientation. All other tweakables are plain distances or floats. */
  predicate IsAngle(t: Tweakable)
  {
    t.CameraAov? || t.PhotoOrientation?
  }

  /** TweakableValue: the current value of the field the tweakable points
      to. */
  function Value(t: Tweakable): (r: real)
    reads (if t.PointCoord? then {t.point} else {})`position
    reads (if t.CameraAov? then {t.camera} else {})`longSideAov
    reads (if t.CameraCenter? then {t.camera} else {})`distortionImageCenter
    reads (if t.CameraK? then {t.camera} else {})`distortionKs
    reads (if t.PhotoPosition? then {t.photo} else {})`position
    reads (if t.PhotoOrientation? then {t.photo} else {})`orientation
    reads (if t.TripodOffset? then {t.tripod} else {})`offset
    reads (if t.TripodOffsetSide? then {t.tripod} else {})`offsetSide
    reads (if t.TripodPosition? then {t.tripod} else {})`position
  {
    match t
    case PointCoord(p, axis) => p.position.At(axis)
    case CameraAov(c) => c.longSideAov
    case CameraCenter(c, axis) => PixelAt(c.distortionImageCenter, axis)
    case CameraK(c, i) => c.distortionKs.At(i)
    case PhotoPosition(ph, axis) => ph.position.At(axis)
    case PhotoOrientation(ph, axis) => ph.orientation.At(axis)
    case TripodOffset(tr) => tr.offset
    case TripodOffsetSide(tr) => tr.offsetSide
    case TripodPosition(tr, axis) => tr.position.At(axis)
  }

  /** What SetTweakableValue(v) stores: angles are normalized into
      [0, 2*Pi), every other field takes v as it is. */
  function Stored(t: Tweakable, v: real): (r: real)
  {
    if IsAngle(t) then Angles.Normalized(v) else v
  }

  /** A stored value reads back as v exactly when v is already in the
      range of the field: anything for a distance or float, [0, 2*Pi) for
      an angle. */
  lemma StoredRoundTrip(t: Tweakable, v: real)
    ensures Stored(t, v) == v <==> !IsAngle(t) || 0.0 <= v < Angles.TwoPi
  {
    if IsAngle(t) && 0.0 <= v < Angles.TwoPi {
      Angles.NormalizedInRange(v);
    }
  }

  /** Storing is idempotent: storing what was stored changes nothing. */
  lemma StoredIdempotent(t: Tweakable, v: real)
    ensures Stored(t, Stored(t, v)) == Stored(t, v)
  {
    StoredRoundTrip(t, Stored(t, v));
  }

  /** The Tweakable implementations' SetTweakableValue: writes the one
      field the tweakable points to, and only the component it names, so
      every other tweakable (among others) keeps its value. */
  method SetValue(t: Tweakable, v: real, ghost others: seq<Tweakable>, ghost f: Frames)
    modifies (if t.PointCoord? then {t.point} else {})`position
    modifies (if t.CameraAov? then {t.camera} else {})`longSideAov
    modifies (if t.CameraCenter? then {t.camera} else {})`distortionImageCenter
    modifies (if t.CameraK? then {t.camera} else {})`distortionKs
    modifies (if t.PhotoPosition? then {t.photo} else {})`position
    modifies (if t.PhotoOrientation? then {t.photo} else {})`orientation
    modifies (if t.TripodOffset? then {t.tripod} else {})`offset
    modifies (if t.TripodOffsetSide? then {t.tripod} else {})`offsetSide
    modifies (if t.TripodPosition? then {t.tripod} else {})`position
    ensures Value(t) == Stored(t, v)
    ensures forall j :: 0 <= j < |others| && others[j] != t ==> Value(others[j]) == old(Value(others[j]))
    ensures forall u :: OwnedBy(u, f) && u != t ==> Value(u) == old(Value(u))
  {
    match t
    case PointCoord(p, axis) => p.position := p.position.With(axis, v);
    case CameraAov(c) => c.longSideAov := Angles.Normalized(v);
    case CameraCenter(c, axis) => c.distortionImageCenter := PixelWith(c.distortionImageCenter, axis, v);
    case CameraK(c, i) => c.distortionKs := c.distortionKs.With(i, v);
    case PhotoPosition(ph, axis) => ph.position := ph.position.With(axis, v);
    case PhotoOrientation(ph, axis) => ph.orientation := ph.orientation.With(axis, Angles.Normalized(v));
    case TripodOffset(tr) => tr.offset := v;
    case TripodOffsetSide(tr) => tr.offsetSide := v;
    case TripodPosition(tr, axis) => tr.position := tr.position.With(axis, v);
  }

  // ---------------------------------------------------------------- Many tweakables at once

  /** The entities whose fields the optimizer may write, by kind. */
  datatype Frames = Frames(points: set<Point>, cameras: set<Camera>, photos: set<CameraPhoto>, tripods: set<Tripod>)

  /** The tweakable points into one of the entities of f. */
  predicate OwnedBy(t: Tweakable, f: Frames)
  {
    match t
    case PointCoord(p, _) => p in f.points
    case CameraAov(c) => c in f.cameras
    case CameraCenter(c, _) => c in f.cameras
    case CameraK(c, _) => c in f.cameras
    case PhotoPosition(ph, _) => ph in f.photos
    case PhotoOrientation(ph, _) => ph in f.photos
    case TripodOffset(tr) => tr in f.tripods
    case TripodOffsetSide(tr) => tr in f.tripods
    case TripodPosition(tr, _) => tr in f.tripods
  }

  /** No later tweakable among the first n is the same as ts[j]: the write
      of x[j] is the last one to that field. */
  predicate LastBefore(ts: seq<Tweakable>, j: nat, n: nat)
    requires j < n <= |ts|
  {
    forall k :: j < k < n ==> ts[k] != ts[j]
  }

  /** The loop of Optimize that builds the initial parameter vector: the
      current value of every tweakable, in order. */
  method InitialValues(ts: seq<Tweakable>) returns (init: seq<real>)
    ensures |init| == |ts|
    ensures forall i :: 0 <= i < |ts| ==> init[i] == Value(ts[i])
  {
    init := [];
    for i := 0 to |ts|
      invariant |init| == i
      invariant forall j :: 0 <= j < i ==> init[j] == Value(ts[j])
    {
      init := init + [Value(ts[i])];
    }
  }

  /** The loop that sets every tweakable i to x[i], at the start of the
      objective and once more with the solver's result. When a field
      appears twice, the later write wins. */
  method WriteParameters(ts: seq<Tweakable>, x: seq<real>, ghost f: Frames)
    requires |x| == |ts| && forall t :: t in ts ==> OwnedBy(t, f)
    modifies f.points`position, f.cameras`longSideAov, f.cameras`distortionImageCenter, f.cameras`distortionKs
    modifies f.photos`position, f.photos`orientation, f.tripods`offset, f.tripods`offsetSide, f.tripods`position
    ensures forall i :: 0 <= i < |ts| && LastBefore(ts, i, |ts|) ==> Value(ts[i]) == Stored(ts[i], x[i])
    ensures forall t :: OwnedBy(t, f) && t !in ts ==> Value(t) == old(Value(t))
  {
    for i := 0 to |ts|
      invariant forall j :: 0 <= j < i && LastBefore(ts, j, i) ==> Value(ts[j]) == Stored(ts[j], x[j])
      invariant forall t :: OwnedBy(t, f) && t !in ts[..i] ==> Value(t) == old(Value(t))
    {
      assert OwnedBy(ts[i], f);
      SetValue(ts[i], x[i], ts[..i], f);
      forall j | 0 <= j < i + 1 && LastBefore(ts, j, i + 1)
        ensures Value(ts[j]) == Stored(ts[j], x[j])
      {
        if j < i {
          assert ts[..i][j] == ts[j] != ts[i];
        }
      }
      assert ts[..i + 1] == ts[..i] + [ts[i]];
    }
    assert ts[..|ts|] == ts;
  }

  // ---------------------------------------------------------------- Guards

  const NoTweakables := "there are no tweakable variables"
  const NoResiduals := "there are no residuals to be determined"

  /** The two guards at the start of Optimize as written: the second one
      tests the number of tweakables again. */
  function GuardAsWritten(tweakables: nat, residuals: nat): (r: Option<string>)
    ensures r.Some? <==> tweakables == 0
    ensures r.Some? ==> r.value == NoTweakables
  {
    if tweakables == 0 then Some(NoTweakables)
    else if tweakables == 0 then Some(NoResiduals)
    else None
  }

  /** As written, a site with tweakables but no residual passes both
      guards, although the second guard's message says it is meant to
      stop exactly that case. */
  lemma GuardAsWrittenPassesNoResiduals()
    ensures GuardAsWritten(1, 0) == None
    ensures Guard(1, 0) == Some(NoResiduals)
  {
  }

  /** The guards of Optimize as intended: no tweakables, then no
      residuals, each with its message. */
  function Guard(tweakables: nat, residuals: nat): (r: Option<string>)
    ensures r == None <==> tweakables > 0 && residuals > 0
    ensures tweakables == 0 ==> r == Some(NoTweakables)
    ensures tweakables > 0 && residuals == 0 ==> r == Some(NoResiduals)
  {
    if tweakables == 0 then Some(NoTweakables)
    else if residuals == 0 then Some(NoResiduals)
    else None
  }

  // ---------------------------------------------------------------- The residuals of the objective

  /** The owner references a residual's ResidualSqr follows are set, and a
      photo keeps one mapping object per key. */
  ghost predicate Evaluable(r: Residual)
    reads (if r.LineResidual? then {r.line} else {})`site
    reads (if r.RangefinderResidual? then {r.rangefinderMeasurement} else {})`rangefinder
    reads (if r.RangefinderResidual? && r.rangefinderMeasurement.rangefinder != null
           then {r.rangefinderMeasurement.rangefinder} else {})`site
    reads (if r.TripodResidual? then {r.tripodMeasurement} else {})`tripod
    reads (if r.TripodResidual? && r.tripodMeasurement.tripod != null then {r.tripodMeasurement.tripod} else {})`site
    reads (if r.PhotoResidual? then {r.photo} else {})`camera, (if r.PhotoResidual? then {r.photo} else {})`mappings
    reads (if r.PhotoResidual? && r.photo.camera != null then {r.photo.camera} else {})`site
  {
    match r
    case LineResidual(l) => l.site != null
    case RangefinderResidual(d) => d.rangefinder != null && d.rangefinder.site != null
    case TripodResidual(tm) => tm.tripod != null && tm.tripod.site != null
    case PhotoResidual(cp) => cp.camera != null && cp.camera.site != null && Distinct(cp.mappings)
  }

  /** What a residual depends on, as a value: everything its
      ResidualSqr reads, except that a photo's used mappings are given by
      their samples. */
  datatype Inputs =
    | LineInputs(line: Residuals.LineData)
    | RangefinderInputs(rangefinder: Residuals.RangefinderData)
    | TripodInputs(tripod: Residuals.TripodData)
    | PhotoInputs(pose: Pose, angAccuracy: real, used: map<string, Residuals.Sample>)

  ghost function InputsOf(r: Residual): (i: Inputs)
    requires Evaluable(r)
    reads (if r.LineResidual? then {r.line} else {})
    reads (if r.LineResidual? then {r.line.site} else {})
    reads (if r.LineResidual? then r.line.site.points.Values else {})`position
    reads (if r.RangefinderResidual? then {r.rangefinderMeasurement} else {})
    reads (if r.RangefinderResidual? then {r.rangefinderMeasurement.rangefinder} else {})
    reads (if r.RangefinderResidual? then {r.rangefinderMeasurement.rangefinder.site} else {})
    reads (if r.RangefinderResidual? then r.rangefinderMeasurement.rangefinder.site.points.Values else {})`position
    reads (if r.TripodResidual? then {r.tripodMeasurement} else {})
    reads (if r.TripodResidual? then {r.tripodMeasurement.tripod} else {})
    reads (if r.TripodResidual? then {r.tripodMeasurement.tripod.site} else {})
    reads (if r.TripodResidual? then r.tripodMeasurement.tripod.site.points.Values else {})`position
    reads (if r.PhotoResidual? then {r.photo} else {})
    reads (if r.PhotoResidual? then {r.photo.camera} else {})
    reads (if r.PhotoResidual? then {r.photo.camera.site} else {})
    reads (if r.PhotoResidual? then r.photo.camera.site.points.Values else {})`position
    reads (if r.PhotoResidual? then r.photo.mappings.Values else {})`pointKey
    reads (if r.PhotoResidual? then r.photo.mappings.Values else {})`suggested
    reads (if r.PhotoResidual? then r.photo.mappings.Values else {})`position
  {
    match r
    case LineResidual(l) => LineInputs(Residuals.LineInputs(l))
    case RangefinderResidual(d) => RangefinderInputs(Residuals.RangefinderInputs(d))
    case TripodResidual(tm) => TripodInputs(Residuals.TripodInputs(tm))
    case PhotoResidual(cp) => PhotoInputs(Residuals.PoseOf(cp), cp.camera.angAccuracy, Residuals.UsedSamples(cp))
  }

  /** v is the squared residual of a residual with inputs i; for a photo,
      keys and samples list the used mappings in the order the evaluation
      visited them. */
  ghost predicate EvaluatedFrom(n: Numerics, i: Inputs, keys: seq<string>, samples: seq<Residuals.Sample>, v: Float)
    requires Lawful(n)
  {
    match i
    case LineInputs(d) => v == Residuals.LineResidualOf(n, d)
    case RangefinderInputs(d) => v == Residuals.RangefinderResidualOf(n, d)
    case TripodInputs(d) => v == Residuals.TripodResidualOf(n, d)
    case PhotoInputs(pose, angAccuracy, used) =>
      Residuals.Lists(keys, samples, used) && v == Residuals.PhotoResidualOf(n, pose, angAccuracy, samples)
  }

  /** v is the squared residual of r in the current state, as the
      residual's own ResidualSqr defines it. */
  ghost predicate Evaluated(n: Numerics, r: Residual, keys: seq<string>, samples: seq<Residuals.Sample>, v: Float)
    requires Lawful(n) && Evaluable(r)
    reads (if r.LineResidual? then {r.line} else {})
    reads (if r.LineResidual? then {r.line.site} else {})
    reads (if r.LineResidual? then r.line.site.points.Values else {})`position
    reads (if r.RangefinderResidual? then {r.rangefinderMeasurement} else {})
    reads (if r.RangefinderResidual? then {r.rangefinderMeasurement.rangefinder} else {})
    reads (if r.RangefinderResidual? then {r.rangefinderMeasurement.rangefinder.site} else {})
    reads (if r.RangefinderResidual? then r.rangefinderMeasurement.rangefinder.site.points.Values else {})`position
    reads (if r.TripodResidual? then {r.tripodMeasurement} else {})
    reads (if r.TripodResidual? then {r.tripodMeasurement.tripod} else {})
    reads (if r.TripodResidual? then {r.tripodMeasurement.tripod.site} else {})
    reads (if r.TripodResidual? then r.tripodMeasurement.tripod.site.points.Values else {})`position
    reads (if r.PhotoResidual? then {r.photo} else {})
    reads (if r.PhotoResidual? then {r.photo.camera} else {})
    reads (if r.PhotoResidual? then {r.photo.camera.site} else {})
    reads (if r.PhotoResidual? then r.photo.camera.site.points.Values else {})`position
    reads (if r.PhotoResidual? then r.photo.mappings.Values else {})`pointKey
    reads (if r.PhotoResidual? then r.photo.mappings.Values else {})`suggested
    reads (if r.PhotoResidual? then r.photo.mappings.Values else {})`position
  {
    match r
    case LineResidual(l) => v == Residuals.LineResidualSqr(n, l)
    case RangefinderResidual(d) => v == Residuals.RangefinderResidualSqr(n, d)
    case TripodResidual(tm) => v == Residuals.TripodResidualSqr(n, tm)
    case PhotoResidual(cp) =>
      Residuals.UsedListing(cp, keys, samples) &&
      v == Residuals.PhotoResidualOf(n, Residuals.PoseOf(cp), cp.camera.angAccuracy, samples)
  }

  /** Evaluating from the inputs of r is evaluating r. */
  lemma EvaluatedFromInputs(n: Numerics, r: Residual, keys: seq<string>, samples: seq<Residuals.Sample>, v: Float)
    requires Lawful(n) && Evaluable(r)
    ensures EvaluatedFrom(n, InputsOf(r), keys, samples, v) <==> Evaluated(n, r, keys, samples, v)
  {
    if r.PhotoResidual? {
      Residuals.UsedListingLists(r.photo, keys, samples);
    }
  }

  /** camera-photo.go: ResidualSqr, stated on the photo's inputs when it
      was called: it writes only the sr fields of the mappings. */
  method EvaluatePhoto(n: Numerics, cp: CameraPhoto) returns (v: Float, ghost keys: seq<string>, ghost samples: seq<Residuals.Sample>)
    requires Lawful(n) && cp.camera != null && cp.camera.site != null && Distinct(cp.mappings)
    modifies cp.mappings.Values`sr
    ensures Residuals.Lists(keys, samples, old(Residuals.UsedSamples(cp)))
    ensures v == Residuals.PhotoResidualOf(n, old(Residuals.PoseOf(cp)), old(cp.camera.angAccuracy), samples)
  {
    ghost var pose, used := Residuals.PoseOf(cp), Residuals.UsedSamples(cp);
    v, keys, samples := Residuals.PhotoResidualSqr(n, cp);
    assert Residuals.PoseOf(cp) == pose && cp.camera.angAccuracy == old(cp.camera.angAccuracy);
    Residuals.UsedListingLists(cp, keys, samples);
    assert Residuals.UsedSamples(cp) == used;
  }

  /** One residual's ResidualSqr, stated on the inputs it had when it was
      called. */
  method EvaluateResidual(n: Numerics, r: Residual) returns (v: Float, ghost keys: seq<string>, ghost samples: seq<Residuals.Sample>)
    requires Lawful(n) && Evaluable(r)
    modifies (if r.PhotoResidual? then r.photo.mappings.Values else {})`sr
    ensures EvaluatedFrom(n, old(InputsOf(r)), keys, samples, v)
  {
    match r
    case LineResidual(l) =>
      v, keys, samples := Residuals.LineResidualSqr(n, l), [], [];
    case RangefinderResidual(d) =>
      v, keys, samples := Residuals.RangefinderResidualSqr(n, d), [], [];
    case TripodResidual(tm) =>
      v, keys, samples := Residuals.TripodResidualSqr(n, tm), [], [];
    case PhotoResidual(cp) =>
      v, keys, samples := EvaluatePhoto(n, cp);
  }

  /** The first |values| residuals, with inputs ins, evaluated to values;
      keys and samples are the listings the photo residuals visited. */
  ghost predicate AllEvaluated(n: Numerics, ins: seq<Inputs>, keys: seq<seq<string>>, samples: seq<seq<Residuals.Sample>>,
                               values: seq<Float>)
    requires Lawful(n)
  {
    |keys| == |samples| == |values| <= |ins| &&
    forall j :: 0 <= j < |values| ==> EvaluatedFrom(n, ins[j], keys[j], samples[j], values[j])
  }

  lemma AllEvaluatedStep(n: Numerics, ins: seq<Inputs>, keys: seq<seq<string>>, samples: seq<seq<Residuals.Sample>>,
                         values: seq<Float>, k: seq<string>, smp: seq<Residuals.Sample>, v: Float)
    requires Lawful(n) && AllEvaluated(n, ins, keys, samples, values) && |values| < |ins|
    requires EvaluatedFrom(n, ins[|values|], k, smp, v)
    ensures AllEvaluated(n, ins, keys + [k], samples + [smp], values + [v])
  {
    assert forall j :: 0 <= j < |values| ==> (keys + [k])[j] == keys[j] && (samples + [smp])[j] == samples[j] &&
                                              (values + [v])[j] == values[j];
  }

  /** The second loop of the objective: dst[i] is the squared residual of
      rs[i]. Evaluating a residual writes only the sr fields of mappings,
      which no residual reads, so every residual is evaluated on the
      inputs it had when the loop started (ins). */
  method EvaluateInto(n: Numerics, rs: seq<Residual>, dst: array<Float>, ghost pool: set<CameraPhotoMapping>)
      returns (ghost ins: seq<Inputs>, ghost keys: seq<seq<string>>, ghost samples: seq<seq<Residuals.Sample>>)
    requires Lawful(n) && dst.Length == |rs|
    requires forall i :: 0 <= i < |rs| ==> Evaluable(rs[i])
    requires forall i :: 0 <= i < |rs| && rs[i].PhotoResidual? ==> rs[i].photo.mappings.Values <= pool
    modifies dst, pool`sr
    ensures |ins| == |rs| && forall i :: 0 <= i < |rs| ==> ins[i] == old(InputsOf(rs[i]))
    ensures AllEvaluated(n, ins, keys, samples, dst[..])
  {
    ins := seq(|rs|, j requires 0 <= j < |rs| && Evaluable(rs[j]) reads * => InputsOf(rs[j]));
    keys, samples := [], [];
    for i := 0 to |rs|
      invariant AllEvaluated(n, ins, keys, samples, dst[..i])
    {
      assert Evaluable(rs[i]) && InputsOf(rs[i]) == ins[i];
      var v, k, smp := EvaluateResidual(n, rs[i]);
      dst[i] := v;
      AllEvaluatedStep(n, ins, keys, samples, dst[..i], k, smp, v);
      assert dst[..i + 1] == dst[..i] + [v];
      keys, samples := keys + [k], samples + [smp];
    }
    assert dst[..] == dst[..|rs|];
  }

  /** The same loop, stated on the state it leaves: no residual's inputs
      changed, so dst holds the squared residuals of the current state. */
  method EvaluateResiduals(n: Numerics, rs: seq<Residual>, dst: array<Float>, ghost pool: set<CameraPhotoMapping>)
      returns (ghost ins: seq<Inputs>, ghost keys: seq<seq<string>>, ghost samples: seq<seq<Residuals.Sample>>)
    requires Lawful(n) && dst.Length == |rs|
    requires forall i :: 0 <= i < |rs| ==> Evaluable(rs[i])
    requires forall i :: 0 <= i < |rs| && rs[i].PhotoResidual? ==> rs[i].photo.mappings.Values <= pool
    modifies dst, pool`sr
    ensures forall i :: 0 <= i < |rs| ==> Evaluable(rs[i])
    ensures |ins| == |rs| && forall i :: 0 <= i < |rs| ==> ins[i] == InputsOf(rs[i])
    ensures AllEvaluated(n, ins, keys, samples, dst[..])
  {
    ins, keys, samples := EvaluateInto(n, rs, dst, pool);
  }

  // ---------------------------------------------------------------- The objective

  /** The objective function handed to the solver (optimizeFunc): set
      every tweakable to x, then fill dst with the squared residuals, each
      evaluated on the inputs it has once x is written. */
  method Objective(n: Numerics, ts: seq<Tweakable>, rs: seq<Residual>, x: seq<real>, dst: array<Float>,
                   ghost f: Frames, ghost pool: set<CameraPhotoMapping>)
      returns (ghost ins: seq<Inputs>, ghost keys: seq<seq<string>>, ghost samples: seq<seq<Residuals.Sample>>)
    requires Lawful(n) && |x| == |ts| && dst.Length == |rs| && forall t :: t in ts ==> OwnedBy(t, f)
    requires forall i :: 0 <= i < |rs| ==> Evaluable(rs[i])
    requires forall i :: 0 <= i < |rs| && rs[i].PhotoResidual? ==> rs[i].photo.mappings.Values <= pool
    modifies f.points`position, f.cameras`longSideAov, f.cameras`distortionImageCenter, f.cameras`distortionKs
    modifies f.photos`position, f.photos`orientation, f.tripods`offset, f.tripods`offsetSide, f.tripods`position
    modifies dst, pool`sr
    ensures forall i :: 0 <= i < |ts| && LastBefore(ts, i, |ts|) ==> Value(ts[i]) == Stored(ts[i], x[i])
    ensures forall t :: OwnedBy(t, f) && t !in ts ==> Value(t) == old(Value(t))
    ensures forall i :: 0 <= i < |rs| ==> Evaluable(rs[i])
    ensures |ins| == |rs| && forall i :: 0 <= i < |rs| ==> ins[i] == InputsOf(rs[i])
    ensures AllEvaluated(n, ins, keys, samples, dst[..])
  {
    WriteParameters(ts, x, f);
    ins, keys, samples := EvaluateResiduals(n, rs, dst, pool);
  }

  // ---------------------------------------------------------------- The solver

  /** One call of the objective: the parameters tried and the squared
      residuals it wrote to dst. */
  datatype Evaluation = Evaluation(params: seq<real>, values: seq<Float>)

  /** The least-squares solver (lm.LM with a numerical Jacobian), as an
      oracle: given the initial parameters and the evaluations so far, next
      is the parameter vector it tries next, or None once it has
      converged; result is the solution it reports. */
  datatype Solver = Solver(next: (seq<real>, seq<Evaluation>) -> Option<seq<real>>,
                           result: (seq<real>, seq<Evaluation>) -> seq<real>)

  /** The solver works in the dimension of the initial parameters
      (LMProblem.Dim is len(init)). */
  ghost predicate Sized(solver: Solver)
  {
    (forall init, history :: solver.next(init, history).Some? ==> |solver.next(init, history).value| == |init|) &&
    (forall init, history :: |solver.result(init, history)| == |init|)
  }

  /** history is a run of the solver from init: each evaluation is at the
      parameters the solver asked for after the ones before it, and every
      evaluation has one value per residual. */
  ghost predicate Followed(solver: Solver, init: seq<real>, history: seq<Evaluation>, size: nat)
  {
    forall k :: 0 <= k < |history| ==>
      solver.next(init, history[..k]) == Some(history[k].params) && |history[k].values| == size
  }

  /** What one call of the objective saw, recorded alongside the
      evaluation the solver got back: the inputs of every residual, the
      mappings each photo residual used, and the value of every tweakable,
      all in the state right after the parameters were written. */
  datatype Trial = Trial(ins: seq<Inputs>, keys: seq<seq<string>>, samples: seq<seq<Residuals.Sample>>,
                         written: seq<real>)

  /** The evaluation e came from the objective: its values are the squared
      residuals of the recorded inputs, and the recorded tweakable values
      are what writing e's parameters stores. */
  ghost predicate Probed(n: Numerics, ts: seq<Tweakable>, size: nat, e: Evaluation, t: Trial)
    requires Lawful(n)
  {
    |e.params| == |t.written| == |ts| && |t.ins| == size &&
    AllEvaluated(n, t.ins, t.keys, t.samples, e.values) &&
    forall i :: 0 <= i < |ts| && LastBefore(ts, i, |ts|) ==> t.written[i] == Stored(ts[i], e.params[i])
  }

  /** A run of the solver from init: it evaluated the objective at the
      points it asked for, at most budget times, stopping early only when
      it had converged, and x is the result it reported. */
  ghost predicate Ran(n: Numerics, ts: seq<Tweakable>, size: nat, solver: Solver, budget: nat,
                      init: seq<real>, history: seq<Evaluation>, x: seq<real>, trials: seq<Trial>)
    requires Lawful(n)
  {
    Followed(solver, init, history, size) && |history| <= budget &&
    (|history| == budget || solver.next(init, history).None?) &&
    |trials| == |history| && (forall k :: 0 <= k < |history| ==> Probed(n, ts, size, history[k], trials[k])) &&
    x == solver.result(init, history) && |x| == |ts|
  }

  lemma FollowedStep(solver: Solver, init: seq<real>, history: seq<Evaluation>, size: nat, e: Evaluation)
    requires Followed(solver, init, history, size)
    requires solver.next(init, history) == Some(e.params) && |e.values| == size
    ensures Followed(solver, init, history + [e], size)
  {
    assert (history + [e])[..|history|] == history;
    forall k | 0 <= k < |history| ensures (history + [e])[..k] == history[..k] {}
  }

  /** One evaluation the solver asks for: the objective at params, and
      what it saw. */
  method Probe(n: Numerics, ts: seq<Tweakable>, rs: seq<Residual>, params: seq<real>, dst: array<Float>,
               ghost f: Frames, ghost pool: set<CameraPhotoMapping>) returns (e: Evaluation, ghost t: Trial)
    requires Lawful(n) && |params| == |ts| && dst.Length == |rs| && forall u :: u in ts ==> OwnedBy(u, f)
    requires forall i :: 0 <= i < |rs| ==> Evaluable(rs[i])
    requires forall i :: 0 <= i < |rs| && rs[i].PhotoResidual? ==> rs[i].photo.mappings.Values <= pool
    modifies f.points`position, f.cameras`longSideAov, f.cameras`distortionImageCenter, f.cameras`distortionKs
    modifies f.photos`position, f.photos`orientation, f.tripods`offset, f.tripods`offsetSide, f.tripods`position
    modifies dst, pool`sr
    ensures e.params == params && |e.values| == |rs| && Probed(n, ts, |rs|, e, t)
    ensures forall i :: 0 <= i < |rs| ==> Evaluable(rs[i])
    ensures forall u :: OwnedBy(u, f) && u !in ts ==> Value(u) == old(Value(u))
  {
    ghost var ins, keys, samples := Objective(n, ts, rs, params, dst, f, pool);
    e := Evaluation(params, dst[..]);
    ghost var written := seq(|ts|, i requires 0 <= i < |ts| reads * => Value(ts[i]));
    t := Trial(ins, keys, samples, written);
  }

  /** The solver's run: ask it for parameters, evaluate the objective
      there, and hand back the evaluation, until it has converged or has
      had budget evaluations. */
  method Search(n: Numerics, ts: seq<Tweakable>, rs: seq<Residual>, solver: Solver, budget: nat, init: seq<real>,
                ghost f: Frames, ghost pool: set<CameraPhotoMapping>)
      returns (history: seq<Evaluation>, ghost trials: seq<Trial>)
    requires Lawful(n) && Sized(solver) && |init| == |ts| && forall t :: t in ts ==> OwnedBy(t, f)
    requires forall i :: 0 <= i < |rs| ==> Evaluable(rs[i])
    requires forall i :: 0 <= i < |rs| && rs[i].PhotoResidual? ==> rs[i].photo.mappings.Values <= pool
    modifies f.points`position, f.cameras`longSideAov, f.cameras`distortionImageCenter, f.cameras`distortionKs
    modifies f.photos`position, f.photos`orientation, f.tripods`offset, f.tripods`offsetSide, f.tripods`position
    modifies pool`sr
    ensures forall t :: OwnedBy(t, f) && t !in ts ==> Value(t) == old(Value(t))
    ensures Followed(solver, init, history, |rs|) && |history| <= budget
    ensures |history| == budget || solver.next(init, history).None?
    ensures |trials| == |history| && forall k :: 0 <= k < |history| ==> Probed(n, ts, |rs|, history[k], trials[k])
  {
    var dst := new Float[|rs|];
    history := [];
    trials := [];
    var converged := false;
    while !converged && |history| < budget
      invariant Followed(solver, init, history, |rs|) && |history| <= budget
      invariant converged ==> solver.next(init, history).None?
      invariant forall i :: 0 <= i < |rs| ==> Evaluable(rs[i])
      invariant forall t :: OwnedBy(t, f) && t !in ts ==> Value(t) == old(Value(t))
      invariant |trials| == |history| && forall k :: 0 <= k < |history| ==> Probed(n, ts, |rs|, history[k], trials[k])
      decreases budget - |history|, if converged then 0 else 1
    {
      var trial := solver.next(init, history);
      if trial.None? {
        converged := true;
      } else {
        var e, t := Probe(n, ts, rs, trial.value, dst, f, pool);
        FollowedStep(solver, init, history, |rs|, e);
        history, trials := history + [e], trials + [t];
      }
    }
  }

  /** The body of Optimize once the guards have passed: take the current
      values as the initial parameters, let the solver evaluate the
      objective as often as it asks (at most budget times), then write its
      result to the tweakables. */
  method Solve(n: Numerics, ts: seq<Tweakable>, rs: seq<Residual>, solver: Solver, budget: nat,
               ghost f: Frames, ghost pool: set<CameraPhotoMapping>)
      returns (init: seq<real>, history: seq<Evaluation>, x: seq<real>, ghost trials: seq<Trial>)
    requires Lawful(n) && Sized(solver) && forall t :: t in ts ==> OwnedBy(t, f)
    requires forall i :: 0 <= i < |rs| ==> Evaluable(rs[i])
    requires forall i :: 0 <= i < |rs| && rs[i].PhotoResidual? ==> rs[i].photo.mappings.Values <= pool
    modifies f.points`position, f.cameras`longSideAov, f.cameras`distortionImageCenter, f.cameras`distortionKs
    modifies f.photos`position, f.photos`orientation, f.tripods`offset, f.tripods`offsetSide, f.tripods`position
    modifies pool`sr
    ensures |init| == |ts| && forall i :: 0 <= i < |ts| ==> init[i] == old(Value(ts[i]))
    ensures Ran(n, ts, |rs|, solver, budget, init, history, x, trials)
    ensures forall i :: 0 <= i < |ts| && LastBefore(ts, i, |ts|) ==> Value(ts[i]) == Stored(ts[i], x[i])
    ensures forall t :: OwnedBy(t, f) && t !in ts ==> Value(t) == old(Value(t))
  {
    init := InitialValues(ts);
    history, trials := Search(n, ts, rs, solver, budget, init, f, pool);
    x := solver.result(init, history);
    WriteParameters(ts, x, f);
  }

  // ---------------------------------------------------------------- Whose fields the optimizer changes

  lemma {:induction false} PointsTweakablesOwned(m: map<string, Point>, keys: seq<string>, f: Frames)
    requires forall i :: 0 <= i < |keys| ==> keys[i] in m
    requires m.Values <= f.points
    ensures forall t :: t in PointsTweakables(m, keys) ==> OwnedBy(t, f)
  {
    if keys != [] {
      PointsTweakablesOwned(m, keys[..|keys| - 1], f);
    }
  }

  lemma {:induction false} PhotosTweakablesOwned(m: map<string, CameraPhoto>, keys: seq<string>)
    requires forall i :: 0 <= i < |keys| ==> keys[i] in m
    ensures forall t :: t in PhotosTweakables(m, keys) ==> t.OfPhoto() && t.photo in m.Values
  {
    if keys != [] {
      PhotosTweakablesOwned(m, keys[..|keys| - 1]);
    }
  }

  /** A camera's own tweakables point into the camera. */
  lemma CameraOwnTweakablesOwned(c: Camera)
    ensures forall t :: t in CameraOwnTweakables(c) ==> (t.CameraAov? || t.CameraCenter? || t.CameraK?) && t.camera == c
  {
    KsExactlyUnlocked(c, CameraDistortionKs);
  }

  lemma {:induction false} CamerasTweakablesOwned(m: map<string, Camera>, keys: seq<string>, photos: seq<seq<string>>,
                                                  f: Frames)
    requires CamerasCovered(m, keys, photos)
    requires m.Values <= f.cameras && forall c :: c in m.Values ==> c.photos.Values <= f.photos
    ensures forall t :: t in CamerasTweakables(m, keys, photos) ==> OwnedBy(t, f)
  {
    if keys != [] {
      var n := |keys| - 1;
      CamerasTweakablesOwned(m, keys[..n], photos[..n], f);
      var c := m[keys[n]];
      CameraOwnTweakablesOwned(c);
      PhotosTweakablesOwned(c.photos, photos[n]);
    }
  }

  lemma {:induction false} TripodsTweakablesOwned(m: map<string, Tripod>, keys: seq<string>, f: Frames)
    requires forall i :: 0 <= i < |keys| ==> keys[i] in m
    requires m.Values <= f.tripods
    ensures forall t :: t in TripodsTweakables(m, keys) ==> OwnedBy(t, f)
  {
    if keys != [] {
      TripodsTweakablesOwned(m, keys[..|keys| - 1], f);
    }
  }

  /** Every tweakable of the site points into the site's own points,
      cameras and tripods, or into the photos of its cameras. */
  lemma SiteTweakablesOwned(s: Site, o: Order, f: Frames)
    requires ValidOrder(s, o)
    requires s.points.Values <= f.points && s.cameras.Values <= f.cameras && s.tripods.Values <= f.tripods
    requires forall c :: c in s.cameras.Values ==> c.photos.Values <= f.photos
    ensures forall t :: t in SiteTweakables(s, o) ==> OwnedBy(t, f)
  {
    TripodsCoveredKeys(s.tripods, o.tripods, o.tripodMeasurements);
    PointsTweakablesOwned(s.points, o.points, f);
    CamerasTweakablesOwned(s.cameras, o.cameras, o.photos, f);
    TripodsTweakablesOwned(s.tripods, o.tripods, f);
  }

  /** The back references the residuals follow are set: every line, camera
      and instrument of s belongs to a site, every measurement to its
      instrument, and every photo among photos (which hold all the
      cameras' photos) to a camera of a site, keeping one mapping object
      per key, all among pool. */
  ghost predicate Linked(s: Site, photos: set<CameraPhoto>, pool: set<CameraPhotoMapping>)
    reads s, s.lines.Values, s.cameras.Values, photos, s.rangefinders.Values, s.tripods.Values
    reads set rf, d | rf in s.rangefinders.Values && d in rf.measurements.Values :: d
    reads set tr, d | tr in s.tripods.Values && d in tr.measurements.Values :: d
    reads set ph | ph in photos && ph.camera != null :: ph.camera
  {
    (forall l :: l in s.lines.Values ==> l.site != null) &&
    (forall c :: c in s.cameras.Values ==> c.photos.Values <= photos) &&
    (forall ph :: ph in photos ==>
       ph.camera != null && ph.camera.site != null && Distinct(ph.mappings) && ph.mappings.Values <= pool) &&
    (forall rf :: rf in s.rangefinders.Values ==>
       forall d :: d in rf.measurements.Values ==> d.rangefinder == rf && rf.site != null) &&
    (forall tr :: tr in s.tripods.Values ==>
       forall d :: d in tr.measurements.Values ==> d.tripod == tr && tr.site != null)
  }

  lemma {:induction false} CamerasResidualsOwned(m: map<string, Camera>, keys: seq<string>, photos: seq<seq<string>>,
                                                 phs: set<CameraPhoto>)
    requires CamerasCovered(m, keys, photos)
    requires forall c :: c in m.Values ==> c.photos.Values <= phs
    ensures forall r :: r in CamerasResiduals(m, keys, photos) ==> r.PhotoResidual? && r.photo in phs
  {
    if keys != [] {
      var n := |keys| - 1;
      CamerasResidualsOwned(m, keys[..n], photos[..n], phs);
    }
  }

  lemma {:induction false} RangefindersResidualsEvaluable(m: map<string, Rangefinder>, keys: seq<string>,
                                                          measurements: seq<seq<string>>)
    requires RangefindersCovered(m, keys, measurements)
    requires forall rf :: rf in m.Values ==> forall d :: d in rf.measurements.Values ==> d.rangefinder == rf && rf.site != null
    ensures forall r :: r in RangefindersResiduals(m, keys, measurements) ==> r.RangefinderResidual? && Evaluable(r)
  {
    if keys != [] {
      var n := |keys| - 1;
      RangefindersResidualsEvaluable(m, keys[..n], measurements[..n]);
    }
  }

  lemma {:induction false} TripodsResidualsEvaluable(m: map<string, Tripod>, keys: seq<string>, measurements: seq<seq<string>>)
    requires TripodsCovered(m, keys, measurements)
    requires forall tr :: tr in m.Values ==> forall d :: d in tr.measurements.Values ==> d.tripod == tr && tr.site != null
    ensures forall r :: r in TripodsResiduals(m, keys, measurements) ==> r.TripodResidual? && Evaluable(r)
  {
    if keys != [] {
      var n := |keys| - 1;
      TripodsResidualsEvaluable(m, keys[..n], measurements[..n]);
    }
  }

  /** Every residual of a linked site can be evaluated, and a photo
      residual writes only mappings among pool. */
  lemma SiteResidualsEvaluable(s: Site, o: Order, photos: set<CameraPhoto>, pool: set<CameraPhotoMapping>)
    requires ValidOrder(s, o) && Linked(s, photos, pool)
    ensures forall r :: r in SiteResiduals(s, o) ==>
              Evaluable(r) && (r.PhotoResidual? ==> r.photo.mappings.Values <= pool)
  {
    CamerasResidualsOwned(s.cameras, o.cameras, o.photos, photos);
    RangefindersResidualsEvaluable(s.rangefinders, o.rangefinders, o.rangefinderMeasurements);
    TripodsResidualsEvaluable(s.tripods, o.tripods, o.tripodMeasurements);
  }

  /** Every entity the flattening of s reads is allocated. */
  lemma SiteAllocated(s: Site)
    ensures forall p :: p in s.points.Values ==> allocated(p)
    ensures forall l :: l in s.lines.Values ==> allocated(l)
    ensures forall c :: c in s.cameras.Values ==> allocated(c)
    ensures forall rf :: rf in s.rangefinders.Values ==> allocated(rf)
    ensures forall tr :: tr in s.tripods.Values ==> allocated(tr)
  {
  }

  /** site.go: GetTweakablesAndResiduals, as Optimize calls it: the
      site's tweakables and residuals in the order of a valid listing,
      every tweakable owned by f and unlocked, and every residual ready to
      evaluate. The order's validity is stated for every order equal to o,
      so that a caller that does not ask about it does not unfold it. */
  method ListSite(s: Site, ghost f: Frames, ghost pool: set<CameraPhotoMapping>)
      returns (ts: seq<Tweakable>, rs: seq<Residual>, ghost o: Order)
    requires s.points.Values <= f.points && s.cameras.Values <= f.cameras && s.tripods.Values <= f.tripods
    requires Linked(s, f.photos, pool)
    ensures forall order :: order == o ==> ValidOrder(s, order)
    ensures ts == SiteTweakables(s, o) && rs == SiteResiduals(s, o)
    ensures forall t :: t in ts ==> OwnedBy(t, f)
    ensures forall r :: r in rs ==> Evaluable(r) && (r.PhotoResidual? ==> r.photo.mappings.Values <= pool)
    ensures forall t :: OwnedBy(t, f) && !Unlocked(t) ==> t !in ts
  {
    ts, rs, o := SiteTweakablesAndResiduals(s);
    SiteTweakablesOwned(s, o, f);
    SiteResidualsEvaluable(s, o, f.photos, pool);
    SiteUnlocked(s, o);
  }

  /** ListSite, stated on the state it starts from: it writes nothing, so
      its result is the flattening of the site as it was. */
  method FlattenSite(s: Site, ghost f: Frames, ghost pool: set<CameraPhotoMapping>)
      returns (ts: seq<Tweakable>, rs: seq<Residual>, ghost o: Order)
    requires s.points.Values <= f.points && s.cameras.Values <= f.cameras && s.tripods.Values <= f.tripods
    requires Linked(s, f.photos, pool)
    ensures old(ValidOrder(s, o)) && ts == old(SiteTweakables(s, o)) && rs == old(SiteResiduals(s, o))
    ensures forall t :: t in ts ==> OwnedBy(t, f)
    ensures forall r :: r in rs ==> Evaluable(r) && (r.PhotoResidual? ==> r.photo.mappings.Values <= pool)
    ensures forall t :: OwnedBy(t, f) && !Unlocked(t) ==> t !in ts
  {
    SiteAllocated(s);
    ts, rs, o := ListSite(s, f, pool);
    assert unchanged(s, s.points.Values, s.lines.Values, s.cameras.Values, s.rangefinders.Values, s.tripods.Values);
    assert ValidOrder(s, o);
  }

  /** The flattening as Optimize uses it: every tweakable keeps its value,
      and the lists are the site's tweakables and residuals as they were on
      entry. The link to the order is stated for every order equal to o, as
      in ListSite. */
  method Flatten(s: Site, ghost f: Frames, ghost pool: set<CameraPhotoMapping>)
      returns (ts: seq<Tweakable>, rs: seq<Residual>, ghost o: Order)
    requires s.points.Values <= f.points && s.cameras.Values <= f.cameras && s.tripods.Values <= f.tripods
    requires Linked(s, f.photos, pool)
    ensures forall t :: OwnedBy(t, f) ==> Value(t) == old(Value(t))
    ensures forall order :: order == o ==> old(ValidOrder(s, order)) && ts == old(SiteTweakables(s, order)) && rs == old(SiteResiduals(s, order))
    ensures old(allocated(ts))
    ensures forall t :: t in ts ==> OwnedBy(t, f)
    ensures forall i :: 0 <= i < |rs| ==> Evaluable(rs[i])
    ensures forall i :: 0 <= i < |rs| && rs[i].PhotoResidual? ==> rs[i].photo.mappings.Values <= pool
    ensures forall t :: OwnedBy(t, f) && !Unlocked(t) ==> t !in ts
  {
    OwnedAllocated(f);
    ts, rs, o := FlattenSite(s, f, pool);
    EvaluableAt(rs, pool);
  }

  // ---------------------------------------------------------------- Optimize

  /** Whatever a tweakable points into is allocated once f's entities are. */
  lemma OwnedAllocated(f: Frames)
    ensures forall t :: OwnedBy(t, f) ==> allocated(t)
  {
  }

  /** The residuals' readiness, stated per position. */
  lemma EvaluableAt(rs: seq<Residual>, pool: set<CameraPhotoMapping>)
    requires forall r :: r in rs ==> Evaluable(r) && (r.PhotoResidual? ==> r.photo.mappings.Values <= pool)
    ensures forall i :: 0 <= i < |rs| ==> Evaluable(rs[i])
    ensures forall i :: 0 <= i < |rs| && rs[i].PhotoResidual? ==> rs[i].photo.mappings.Values <= pool
  {
  }

  /** The part of Optimize after the flattening: the guards, then, when
      they pass, the solver run from the current values and the write-back
      of its result. */
  method GuardedSolve(n: Numerics, ts: seq<Tweakable>, rs: seq<Residual>, solver: Solver, budget: nat,
                      ghost f: Frames, ghost pool: set<CameraPhotoMapping>)
      returns (err: Option<string>, ghost init: seq<real>, ghost history: seq<Evaluation>, ghost x: seq<real>,
               ghost trials: seq<Trial>)
    requires Lawful(n) && Sized(solver) && forall t :: t in ts ==> OwnedBy(t, f)
    requires forall i :: 0 <= i < |rs| ==> Evaluable(rs[i])
    requires forall i :: 0 <= i < |rs| && rs[i].PhotoResidual? ==> rs[i].photo.mappings.Values <= pool
    requires forall t :: OwnedBy(t, f) && !Unlocked(t) ==> t !in ts
    modifies f.points`position, f.cameras`longSideAov, f.cameras`distortionImageCenter, f.cameras`distortionKs
    modifies f.photos`position, f.photos`orientation, f.tripods`offset, f.tripods`offsetSide, f.tripods`position
    modifies pool`sr
    ensures forall t :: OwnedBy(t, f) && t !in ts ==> Value(t) == old(Value(t))
    ensures forall t :: OwnedBy(t, f) && !Unlocked(t) ==> Value(t) == old(Value(t))
    ensures err == Guard(|ts|, |rs|)
    ensures err.Some? ==> unchanged(f.points, f.cameras, f.photos, f.tripods, pool)
    ensures err.None? ==> |init| == |ts| && forall i :: 0 <= i < |ts| ==> init[i] == old(Value(ts[i]))
    ensures err.None? ==> Ran(n, ts, |rs|, solver, budget, init, history, x, trials)
    ensures err.None? ==> forall i :: 0 <= i < |ts| && LastBefore(ts, i, |ts|) ==> Value(ts[i]) == Stored(ts[i], x[i])
  {
    err := Guard(|ts|, |rs|);
    if err.Some? {
      init, history, x, trials := [], [], [], [];
      return;
    }
    var start, evaluations, solution, probes := Solve(n, ts, rs, solver, budget, f, pool);
    init, history, x, trials := start, evaluations, solution, probes;
  }

  /** optimizer.go: Optimize. Flattens the site into its tweakables and
      residuals, refuses a site with nothing to tweak or nothing to
      measure, and otherwise runs the solver from the current values and
      writes its result back. The solver's own failure is only logged, so
      the result is written and no error is returned. ts and rs are the
      site's tweakables and residuals on entry, listed in the valid order o;
      nothing outside ts changes, so neither does any locked field. */
  method Optimize(n: Numerics, s: Site, solver: Solver, budget: nat, ghost f: Frames, ghost pool: set<CameraPhotoMapping>)
      returns (err: Option<string>, ghost ts: seq<Tweakable>, ghost rs: seq<Residual>, ghost o: Order,
               ghost init: seq<real>, ghost history: seq<Evaluation>, ghost x: seq<real>, ghost trials: seq<Trial>)
    requires Lawful(n) && Sized(solver)
    requires s.points.Values <= f.points && s.cameras.Values <= f.cameras && s.tripods.Values <= f.tripods
    requires Linked(s, f.photos, pool)
    modifies f.points`position, f.cameras`longSideAov, f.cameras`distortionImageCenter, f.cameras`distortionKs
    modifies f.photos`position, f.photos`orientation, f.tripods`offset, f.tripods`offsetSide, f.tripods`position
    modifies pool`sr
    ensures forall t :: OwnedBy(t, f) && !Unlocked(t) ==> Value(t) == old(Value(t))
    ensures forall t :: OwnedBy(t, f) && t !in ts ==> Value(t) == old(Value(t))
    ensures forall order :: order == o ==> old(ValidOrder(s, order)) && ts == old(SiteTweakables(s, order)) && rs == old(SiteResiduals(s, order))
    ensures old(allocated(ts))
    ensures forall t :: t in ts ==> OwnedBy(t, f)
    ensures err == Guard(|ts|, |rs|)
    ensures err.Some? ==> unchanged(f.points, f.cameras, f.photos, f.tripods, pool)
    ensures err.None? ==> |init| == |ts| && forall i :: 0 <= i < |ts| ==> init[i] == old(Value(ts[i]))
    ensures err.None? ==> Ran(n, ts, |rs|, solver, budget, init, history, x, trials)
    ensures err.None? ==> forall i :: 0 <= i < |ts| && LastBefore(ts, i, |ts|) ==> Value(ts[i]) == Stored(ts[i], x[i])
  {
    OwnedAllocated(f);
    var tweakables, residuals, order := Flatten(s, f, pool);
    ts, rs, o := tweakables, residuals, order;
    err, init, history, x, trials := GuardedSolve(n, tweakables, residuals, solver, budget, f, pool);
  }
}
