# D3surveyor core, modelled in Dafny

D3surveyor is a browser application for surveying a site in three
dimensions. A **site** holds named **points** (world coordinates in metres),
**lines** between two points, **cameras** with their **photos**, and two kinds
of measuring devices: **rangefinders** with their distance **measurements**
between two points, and **tripods** with their distance measurements from a
pivot to one point. On a photo, the user maps image positions to points. The
application can also **suggest** mappings by projecting every point into the
photo.

The heart of the program is an **optimizer**. It flattens the site into a
list of **tweakables** and a list of **residuals**:

- tweakables are the unlocked numbers the solver may change (point and tripod
  positions, camera angle of view, distortion centre and coefficients, photo
  positions and orientations, tripod offsets);
- residuals are the measurements whose squared, accuracy-weighted error the
  solver drives down (line directions, rangefinder and tripod distances,
  photo ray angles).

A Levenberg-Marquardt solver then minimises the residuals and writes the
solution back into the site.

This project models that core:

- the entity tree (`Survey`, one class per entity with its keyed child maps):
  creation, deletion, copying, restoring parent references, and listing the
  children newest first;
- the value types: angles normalised to [0, 2π), distances, pixel distances,
  coordinates, pixel coordinates, and the comma-tolerant input handlers;
- the residual of every measurement kind, with Go's float64 specials
  (infinities, NaN) represented explicitly (`Floats`, `Residuals`);
- the flattening of a site into tweakables and residuals, with all locks
  (`Flattening`);
- the optimizer's guard, objective function, initial vector and write-back,
  with the solver as a parameter (`Optimizer`);
- the radial lens distortion of a camera (`Distortion`);
- the suggestion of point mappings on a photo (`Suggestions`);
- the Wavefront OBJ export (`ObjExport`);
- the zoomable photo canvas (`PhotoCanvas`).

Classes mirror Go structs whose fields change in place. Go value types
become datatypes and functions. Go setters on pointer receivers of value
types (`func (a *Angle) SetTweakableValue`) become functions that return the
new value.

Some routines the core calls but does not define are passed in as
parameters:

- `math.Sqrt`, `math.Acos`, and the camera projection and unprojection, with
  their laws stated by the predicate `Numerics.Lawful`;
- text formatting (`%f`, `%d`) and `strconv.ParseFloat`, as plain functions.

Where Go iterates over a map, or sorts with ties, the visiting order is
unspecified. The model returns that order as a ghost value and states its
results for every order.

Members whose contract is a plain field read are not listed below. This
covers the `Key` functions, `PixelCoordinate.X/Y/Z`, `Pixels`, `Coordinate.At`,
the `TweakableValue` getters, `Vec3` and `Vec4`. The lemmas that use them
cite their lines.

## Model

| member | source | states |
|---|---|---|
| Angles.RoundHalfEven | angle.go:35 | the whole number math.Remainder rounds the quotient to is within one half of that quotient |
| Angles.Remainder | angle.go:35 | math.Remainder(x, y) for y > 0 lies in [-y/2, y/2] and differs from x by a whole multiple of y |
| Angles.Normalized | angle.go:34-41 | a normalised angle lies in [0, 2π) and differs from the input by a whole number of turns |
| Angles.NormalizedInRange | angle.go:33-41 | an angle already in [0, 2π) is left unchanged |
| Angles.NormalizedIdempotent | angle.go:34-41 | normalising twice gives the same angle as normalising once |
| Angles.SetTweakableValue | angle.go:29-31 | whatever the solver writes, the stored angle lies in [0, 2π) |
| Angles.SetThenGet | angle.go:24-31 | reading back a written optimizer value gives that value exactly when it lies in [0, 2π) |
| Angles.DegreesRoundTrip | angle.go:43-49 | Degrees after SetDegrees(d) gives d back |
| Distances.SetThenGet | distance.go:22-29 | reading back a written optimizer value gives that value |
| Distances.SetIdempotent | distance.go:27-29 | writing the same value twice equals writing it once |
| Distances.SetIgnoresPrevious | distance.go:27-29 | the new distance does not depend on the previous one |
| TweakableFloats.SetThenGet | optimizer.go:38-44 | reading back a written optimizer value gives that value |
| TweakableFloats.SetInputValue | optimizer.go:52-62 | after commas become points: text that does not parse keeps the old value; text that parses becomes the value |
| PixelDistances.SetThenGet | pixel-distance.go:33-40 | reading back a written optimizer value gives that value |
| PixelDistances.Sqr | pixel-distance.go:42-44 | the square of a pixel distance is never negative |
| PixelDistances.SqrNeg | pixel-distance.go:42-44 | a pixel distance and its negation have the same square |
| PixelDistances.SetInputValue | pixel-distance.go:52-62 | after commas become points: text that does not parse keeps the old value; text that parses becomes the value |
| InputText.CommaToPoint | optimizer.go:53 | same length; each comma becomes a point and every other character is kept |
| InputText.NoCommaLeft | optimizer.go:53 | no comma survives the replacement |
| InputText.NoCommaUnchanged | optimizer.go:53 | text without a comma is unchanged |
| InputText.ParsedOr | distance-input-component.go:34-45 | the parsed value of the comma-replaced text, or the previous value when it does not parse |
| InputText.CommaActsAsPoint | angle-input-component.go:33-43 | two inputs that differ only by commas in place of points give the same result |
| Util.Sqr | util.go:9-11 | a square is never negative |
| PixelCoordinates.PixelCoordinate.Add | pixel-coordinate.go:35-37 | every component of the sum is the sum of the components |
| PixelCoordinates.PixelCoordinate.Sub | pixel-coordinate.go:39-41 | every component of the difference is the difference of the components |
| PixelCoordinates.PixelCoordinate.Scaled | camera.go:216-231 | every component is multiplied by the factor |
| PixelCoordinates.PixelCoordinate.LengthSqr | camera.go:228 | the squared length is never negative |
| PixelCoordinates.AddCommutative | pixel-coordinate.go:35-37 | p.Add(q) equals q.Add(p) |
| PixelCoordinates.SubUndoesAdd | pixel-coordinate.go:35-41 | p.Add(q).Sub(q) gives p back |
| PixelCoordinates.SubSelf | pixel-coordinate.go:39-41 | p.Sub(p) is the zero coordinate, which counts as unset |
| PixelCoordinates.ScaledByOne | camera.go:231 | scaling by one changes nothing |
| PixelCoordinates.LengthSqrZero | camera.go:213-228 | the squared length is zero exactly for the all-zero coordinate |
| Coordinates.Coordinate.With | coordinate.go:28-38 | the chosen component takes the new value and the other two are kept |
| Coordinates.Coordinate.Add | coordinate.go:47-49 | every axis of the sum is the sum of the two axes |
| Coordinates.Coordinate.Sub | coordinate.go:51-53 | every axis of the difference is the difference of the two axes |
| Coordinates.Coordinate.SqrDistance | coordinate.go:41-45 | the squared distance is never negative |
| Coordinates.Coordinate.Distance | coordinate.go:41-45 | given a lawful square root: the distance is non-negative and its square is the sum of the squared component differences |
| Coordinates.Rotation.With | rotation.go:21-31 | the chosen Euler angle takes the new value and the other two are kept |
| Coordinates.SubUndoesAdd | coordinate.go:47-53 | c.Add(d).Sub(d) gives c back |
| Coordinates.DistanceToSelf | coordinate.go:41-45 | a coordinate is at distance zero from itself |
| Coordinates.DistanceZero | coordinate.go:41-45 | the distance is zero exactly between equal coordinates |
| Coordinates.DistanceSymmetric | coordinate.go:41-45 | the distance does not depend on the order of its arguments |
| Coordinates.DistanceFromSquare | coordinate.go:41-45 | the distance is the unique non-negative number whose square is the squared distance |
| Coordinates.DistanceThreeFourFive | coordinate.go:41-45 | (0,0,0) and (3,4,0) are 5 apart |
| Floats.Inf | rangefinder-measurement.go:87 | the infinity of either sign a division by zero produces |
| Floats.Add | line.go:131 | float64 addition: finite operands give their sum; a NaN operand gives NaN |
| Floats.Mul | line.go:127 | float64 multiplication: finite operands give their product; a NaN operand gives NaN |
| Floats.Div | line.go:126 | float64 division: a finite non-zero divisor gives the quotient; a NaN operand gives NaN |
| Floats.Min | line.go:131 | math.Min: -Inf wins over everything, otherwise NaN wins, and finite operands give the smaller one |
| Floats.SquareNotNegative | camera-photo.go:215-216 | a float64 squared is NaN, +Inf or a non-negative number |
| Floats.MinWithBound | camera-photo.go:217 | math.Min with a finite bound caps any non-NaN, non--Inf value at that bound and keeps smaller values |
| Floats.SumBound | camera-photo.go:198-220 | a sum of terms each NaN or in [0, b] is NaN or in [0, n·b], and finite when no term is NaN |
| Floats.SumPermutation | camera-photo.go:198-220 | over exact reals, summing the same terms in any order gives the same result (float64 addition is not associative, see Left out) |
| Numerics.Acos | line.go:126 | math.Acos: NaN exactly outside [-1, 1], otherwise an angle in [0, π] |
| Numerics.Len | line.go:126 | the length of a vector is non-negative and its square is the sum of the squared components |
| Numerics.ProjectAll | camera-photo.go:226-247 | one projected image coordinate per world coordinate, in the same order |
| Numerics.UnprojectAll | camera-photo.go:250-281 | fails exactly when the photo's pose is not invertible; otherwise one unprojected world coordinate per image coordinate, in the same order |
| Sorting.Insert | site.go:200-202 | inserting a key into a newest-first list keeps it newest first and adds exactly that key |
| Sorting.Sort | site.go:200-202 | the result is a permutation of the keys, ordered newest first by creation time |
| Sorting.NewestFirstKeys | site.go:193-205 | the keys of the map, each exactly once, newest first |
| Sorting.ValuesAt | site.go:196-198 | the values of the map at the listed keys, in the same order |
| Sorting.SortValues | site.go:193-205 | the map's values, listed through a newest-first permutation of its keys |
| Sorting.PermutationOfKeys | site.go:193-205 | a permutation of a key set names every key exactly once |
| Residuals.WeightedSqr | rangefinder-measurement.go:87 | (diff/accuracy)² for a non-zero accuracy; +Inf for a zero accuracy and a non-zero diff; NaN for 0/0 |
| Residuals.WeightedSqrZero | rangefinder-measurement.go:87 | the weighted square is zero exactly when the diff is zero and the accuracy is not |
| Residuals.VectorAngle | line.go:126 | the angle between two vectors is NaN or lies in [0, π] |
| Residuals.VectorAngleSelf | line.go:126 | a non-zero vector makes the angle zero with itself |
| Residuals.VectorAngleZero | line.go:126 | an angle with the zero vector is NaN |
| Residuals.DirectionTerm | line.go:123-132 | the direction term is always finite and lies in [0, 1e6] |
| Residuals.DirectionTermExact | line.go:126-131 | for a defined angle and a non-zero accuracy the term is min((angle/accuracy)², 1e6) |
| Residuals.DirectionTermZeroAccuracy | line.go:126-131 | with a zero accuracy the term is 1e6 |
| Residuals.DirectionTermDegenerate | line.go:126-130 | coincident end points (a zero vector) give the term 1e6 |
| Residuals.LineResidualOf | line.go:109-135 | a line residual lies in [0, 1e6], and is 0 when an end point is missing or the direction is disabled |
| Residuals.LineResidualSqr | line.go:109-135 | Line.ResidualSqr lies in [0, 1e6], and is 0 when P1 or P2 is missing from the site or the direction is disabled |
| Residuals.DirectionTermAligned | line.go:123-132 | a direction equal to the line vector gives the term 0 |
| Residuals.LineResidualAligned | line.go:109-135 | a line whose direction vector equals p2 - p1 has residual 0 |
| Residuals.LineResidualCoincident | line.go:109-135 | a line with the direction enabled and both ends at the same position has residual 1e6 |
| Residuals.LineResidualOfCoincident | line.go:123-132 | same as LineResidualCoincident, stated on the line's inputs |
| Residuals.RangefinderResidualOf | rangefinder-measurement.go:75-88 | 0 when an end point is missing; otherwise NaN, +Inf or non-negative |
| Residuals.RangefinderResidualSqr | rangefinder-measurement.go:75-88 | RangefinderMeasurement.ResidualSqr: 0 when P1 or P2 is missing from the site; otherwise NaN, +Inf or non-negative |
| Residuals.RangefinderResidualZero | rangefinder-measurement.go:75-88 | with a non-zero accuracy the residual is zero exactly when the points are the measured distance apart |
| Residuals.RangefinderResidualExample | rangefinder-measurement.go:75-88 | points (0,0,0) and (3,4,0) measured 5 apart give residual 0 |
| Residuals.PivotDistance | tripod-measurement.go:71-72 | its square is (measured + offset)² + offsetSide², it is at least abs(measured + offset), and it equals abs(measured + offset) when offsetSide is 0 |
| Residuals.TripodResidualOf | tripod-measurement.go:65-77 | 0 when the point is missing; otherwise NaN, +Inf or non-negative |
| Residuals.TripodResidualSqr | tripod-measurement.go:65-77 | TripodMeasurement.ResidualSqr: 0 when PointKey is missing from the site; otherwise NaN, +Inf or non-negative |
| Residuals.TripodResidualZero | tripod-measurement.go:65-77 | with a non-zero accuracy the residual is zero exactly when the pivot distance equals the point's distance from the tripod |
| Residuals.PoseOf | camera-photo.go:173-194 | the pose the photo residual projects with: the camera's angle of view plus the photo's image size, position and orientation |
| Residuals.SampleAngle | camera-photo.go:202-205 | the angle between the unprojected ray and the ray to the point is NaN or lies in [0, π] |
| Residuals.AngleTerm | camera-photo.go:207-217 | a NaN angle contributes 1e6; otherwise the term is NaN or lies in [0, 1e6] |
| Residuals.AngleTermNaN | camera-photo.go:215-217 | the term is NaN exactly for angle 0 with angular accuracy 0 (0/0) |
| Residuals.AngleTermExact | camera-photo.go:215-217 | for a non-zero accuracy the term is min((angle/accuracy)², 1e6) |
| Residuals.SampleTerm | camera-photo.go:199-219 | one mapping's term is NaN or lies in [0, 1e6] |
| Residuals.Terms | camera-photo.go:198-220 | one term per used mapping, in the order the mappings are visited |
| Residuals.PhotoResidualBound | camera-photo.go:173-223 | a failed unprojection gives 1e6; otherwise the residual is NaN or in [0, 1e6 · (number of used mappings)], and finite for a non-zero angular accuracy |
| Residuals.PhotoResidualOrderFree | camera-photo.go:180-186 | over exact reals, the photo residual does not depend on the order the map iteration visits the mappings in (float64 addition is not associative, see Left out) |
| Residuals.Images | camera-photo.go:184 | the mapped image positions of the used mappings, in order |
| Residuals.UsedListingLists | camera-photo.go:180-186 | the listing the loop produces names exactly the non-suggested mappings whose point exists, each once |
| Residuals.UsedMappings | camera-photo.go:177-186 | collects exactly the non-suggested mappings whose point exists, each once, with their samples |
| Residuals.UsedMappingsDistinct | camera-photo.go:180-186 | the collected mappings are distinct objects |
| Residuals.UnlistedNotUsed | camera-photo.go:180-186 | a mapping the loop skips is not among the collected ones |
| Residuals.AccumulateTerms | camera-photo.go:198-220 | the loop's sum is the sum of the terms; each used mapping's sr becomes its term unless the angle was NaN |
| Residuals.PhotoResidualSqr | camera-photo.go:173-223 | CameraPhoto.ResidualSqr returns the photo residual of its pose and used samples; sr is updated only on used mappings and only when unprojection succeeds |
| Flattening.KsExactlyUnlocked | camera.go:176-180 | the distortion-coefficient tweakables are exactly the unlocked coefficients, in index order |
| Flattening.LeadTweakables | camera.go:167-174 | the first tweakables of a camera are only its angle of view and its distortion centre |
| Flattening.PhotosTweakables | camera-photo.go:165-170 | six tweakables per photo, all belonging to photos |
| Flattening.PhotosResiduals | camera-photo.go:165-170 | one residual per photo, the photo itself, in listing order |
| Flattening.RangefinderResiduals | rangefinder-measurement.go:70-72 | one residual per measurement, the measurement itself, in listing order |
| Flattening.TripodResiduals | tripod-measurement.go:60-62 | one residual per measurement, the measurement itself, in listing order |
| Flattening.CameraAovLock | camera.go:167-169 | the angle of view is tweakable exactly when it is not locked |
| Flattening.CameraCenterLock | camera.go:171-174 | a distortion-centre component is tweakable exactly when the centre is unlocked and the component is X or Y |
| Flattening.CameraKLocks | camera.go:176-180 | each distortion coefficient is tweakable exactly when it is not locked |
| Flattening.CameraOrder | camera.go:164-187 | photo tweakables follow all of the camera's own; coefficients appear in index order |
| Flattening.TripodLocks | tripod.go:121-140 | offset and side offset are tweakable exactly when unlocked, in that order and first; the position X, Y, Z come last |
| Flattening.CameraUnlocked | camera.go:164-187 | no locked camera value is among a camera's tweakables |
| Flattening.TripodUnlocked | tripod.go:121-140 | no locked tripod value is among a tripod's tweakables |
| Flattening.CameraTweakablesAndResiduals | camera.go:164-187 | photos are visited newest first, each once; tweakables are the unlocked own values then each photo's; one residual per photo |
| Flattening.CameraOwnTweakablesOf | camera.go:165-180 | the coefficient loop yields exactly the camera's own unlocked tweakables |
| Flattening.RangefinderTweakablesAndResiduals | rangefinder.go:87-94 | no tweakables; one residual per measurement, each visited once |
| Flattening.TripodTweakablesAndResiduals | tripod.go:121-140 | measurements are visited newest first, each once; the tripod's unlocked tweakables; one residual per measurement |
| Flattening.PointsTweakables | point.go:73-75 | three tweakables per point |
| Flattening.LinesResiduals | line.go:104-106 | one residual per line, the line itself |
| Flattening.PointsGroup | site.go:163-166 | the points loop lists the points newest first and yields their coordinate tweakables |
| Flattening.LinesGroup | site.go:168-171 | the lines loop lists the lines newest first and yields one residual per line |
| Flattening.CamerasGroup | site.go:173-176 | the cameras loop lists the cameras newest first and appends each camera's tweakables and residuals |
| Flattening.RangefindersGroup | site.go:178-181 | the rangefinders loop lists them newest first and appends each one's residuals |
| Flattening.TripodsGroup | site.go:183-186 | the tripods loop lists them newest first and appends each one's tweakables and residuals |
| Flattening.SiteFromGroups | site.go:160-189 | the five groups joined in the order points, lines, cameras, rangefinders, tripods are the site's flattening |
| Flattening.SiteTweakablesAndResiduals | site.go:160-189 | Site.GetTweakablesAndResiduals returns the flattening for a valid visiting order: every entity list newest first and every child listed once |
| Flattening.PointsTweakablesAreCoordinates | point.go:73-75 | every point tweakable is a point coordinate |
| Flattening.SiteUnlocked | site.go:160-189 | no locked value anywhere in the site reaches the optimizer |
| Flattening.SitePointsComplete | site.go:163-166 | every coordinate of every point is a tweakable |
| Flattening.SiteLinesComplete | site.go:168-171 | every line is a residual |
| Optimizer.StoredRoundTrip | optimizer.go:131-133 | a written solver value reads back unchanged exactly when the tweakable is not an angle or the value lies in [0, 2π) |
| Optimizer.StoredIdempotent | optimizer.go:131-133 | storing a stored value again changes nothing |
| Optimizer.SetValue | optimizer.go:42-44 | SetTweakableValue writes the one value the tweakable designates; every other tweakable of the entities it may touch keeps its value |
| Optimizer.InitialValues | optimizer.go:174-177 | the initial vector holds each tweakable's current value, in order |
| Optimizer.WriteParameters | optimizer.go:131-133 | after the loop, every tweakable holds the stored form of its solver value, and every tweakable not in the list keeps its value |
| Optimizer.GuardAsWritten | optimizer.go:101-106 | the guards as written: an error exactly when there are no tweakables |
| Optimizer.GuardAsWrittenPassesNoResiduals | optimizer.go:104-106 | one tweakable and no residuals pass the guards as written, where the intended guard reports no residuals |
| Optimizer.Guard | optimizer.go:101-106 | no error exactly when there are tweakables and residuals; otherwise the missing-tweakables error first, then missing residuals |
| Optimizer.EvaluatePhoto | camera-photo.go:173-223 | a photo's residual is the photo residual of its pose and used mappings on entry |
| Optimizer.EvaluateResidual | optimizer.go:137 | ResidualSqr of any residual equals the model residual of its inputs on entry |
| Optimizer.EvaluateInto | optimizer.go:136-138 | dst[i] becomes the squared residual of residual i, evaluated on its inputs on entry |
| Optimizer.EvaluateResiduals | optimizer.go:136-138 | as EvaluateInto, with the inputs stated in the final state |
| Optimizer.Objective | optimizer.go:114-139 | the objective writes x into the tweakables, then fills dst with every residual evaluated on the new values; a tweakable not in the list keeps its value |
| Optimizer.Probe | optimizer.go:114-139 | one evaluation the solver asks for: its parameters are the ones asked for, it has one squared residual per residual, evaluated on the inputs recorded after writing the parameters, which read back as their stored form; a tweakable not in the list keeps its value |
| Optimizer.Search | optimizer.go:179-198 | the evaluations follow the solver from the initial vector, at most budget of them, and stop early only when the solver has converged; each is tied to the residuals as in Probe; a tweakable not in the list keeps its value |
| Optimizer.Solve | optimizer.go:174-203 | the initial vector is the current values; the evaluations follow the solver up to its budget, or until it stops; each evaluation's values are the squared residuals of the inputs recorded after writing its parameters, which read back as the stored form of those parameters; the result has one entry per tweakable and is written back; a tweakable not in the list keeps its value |
| Optimizer.PointsTweakablesOwned | point.go:73-75 | point tweakables designate values of the site's own points |
| Optimizer.PhotosTweakablesOwned | camera-photo.go:165-170 | photo tweakables designate values of the camera's own photos |
| Optimizer.CameraOwnTweakablesOwned | camera.go:164-180 | a camera's own tweakables designate values of that camera |
| Optimizer.CamerasTweakablesOwned | site.go:173-176 | camera and photo tweakables designate values of the site's own cameras and photos |
| Optimizer.TripodsTweakablesOwned | tripod.go:121-140 | tripod tweakables designate values of the site's own tripods |
| Optimizer.SiteTweakablesOwned | site.go:160-189 | every tweakable of the site designates a value of one of the site's own entities |
| Optimizer.CamerasResidualsOwned | site.go:173-176 | every camera residual is one of the site's photos |
| Optimizer.RangefindersResidualsEvaluable | site.go:178-181 | every rangefinder residual can be evaluated through its parent references |
| Optimizer.TripodsResidualsEvaluable | site.go:183-186 | every tripod residual can be evaluated through its parent references |
| Optimizer.SiteResidualsEvaluable | site.go:160-189 | every residual of the site can be evaluated and its mappings are known |
| Optimizer.ListSite | site.go:160-189 | the lists are the site's tweakables and residuals in a valid order; every tweakable belongs to one of the site's entities, no locked field is listed, and every residual can be evaluated |
| Optimizer.FlattenSite | optimizer.go:99 | as ListSite, with the order's validity and both lists stated on the site as it was on entry |
| Optimizer.Flatten | optimizer.go:99 | flattening changes no value; the lists are the site's tweakables and residuals, as they were on entry, for a valid order; all belong to the site, no locked field is listed, and every residual can be evaluated |
| Optimizer.GuardedSolve | optimizer.go:101-203 | a tweakable not in the list keeps its value, and so does a locked one; the error is the intended guard and changes nothing; otherwise the initial vector is the values on entry, each evaluation is tied to the residuals as in Solve, and the result is written back |
| Optimizer.Optimize | optimizer.go:98-206 | the lists it works on are the site's tweakables and residuals on entry, for a valid order; every locked camera, photo or tripod field, and every other value not listed, keeps its value; the error is the intended guard over those lists and changes nothing; otherwise the initial vector is the values on entry, each evaluation is tied to the residuals as in Solve, and the result is written back |
| Distortion.RadialUndistort | camera.go:203-207 | without distortion, or at radius zero, the radial factor is 1 |
| Distortion.Undistorted | camera.go:227-231 | without distortion a coordinate is unchanged, and the centre always maps to itself |
| Distortion.Iterated | camera.go:250-256 | zero rounds give the start radius; after a round the scaling is non-zero; without distortion or at radius zero each round keeps the radius with scaling 1 |
| Distortion.IteratedFailureStays | camera.go:253-256 | once a round has no finite result, no later round has one |
| Distortion.DistortedFrom | camera.go:246-258 | without distortion the coordinate is unchanged; at radius zero it is centre + (p - centre) |
| Distortion.Distorted | camera.go:246-258 | without distortion Distort returns its input |
| Distortion.DistortedCenter | camera.go:236-259 | Distort keeps the distortion centre fixed, whatever the coefficients |
| Distortion.CenterRadius | camera.go:247-248 | the centre lies at radius zero |
| Distortion.RoundTripWithoutDistortion | camera.go:211-259 | with zero coefficients Distort and Undistort undo each other, in both orders |
| Distortion.ChooseCenter | camera.go:213-219 | an unset (all-zero) centre becomes half the image size of one of the photos, if there is one; otherwise the centre stays |
| Distortion.Undistort | camera.go:211-232 | after choosing the centre, the result is the ideal projection of the camera coordinate |
| Distortion.Distort | camera.go:236-259 | after choosing the centre, five fixed-point rounds give the distorted coordinate, or None when a round's scaling is zero |
| Suggestions.PointsInMapOrder | camera-photo.go:288-293 | every point of the site exactly once, with its world position |
| Suggestions.FindMapping | camera-photo.go:303-309 | the mapping of the photo that refers to the point, or nil exactly when there is none |
| Suggestions.DataRestored | camera-photo.go:115-119 | the value snapshot of the mappings says they are restored exactly when their keys and photo references are |
| Suggestions.NewSuggestion | camera-photo.go:310-313 | a new mapping is suggested, keyed, attached to the photo and stamped now |
| Suggestions.Placed | camera-photo.go:315-319 | the projected position is always updated; a suggested mapping also moves to the projection and refers to the point, while a user-placed one keeps its position |
| Suggestions.SuggestInFrame | camera-photo.go:301-319 | an in-frame point gets its existing mapping updated or a new suggested mapping created |
| Suggestions.CreatePlaced | camera-photo.go:310-319 | adds exactly one fresh suggested mapping at the projection under the new key |
| Suggestions.Place | camera-photo.go:314-319 | updates only the found mapping, as Placed says |
| Suggestions.DropOutOfFrame | camera-photo.go:320-333 | an out-of-frame point's suggested mapping is deleted; a user-placed one only gets its projected position |
| Suggestions.ProgressStart | camera-photo.go:299 | the loop invariant holds before the first point |
| Suggestions.ProgressInFrame | camera-photo.go:301-319 | an in-frame step keeps the loop invariant |
| Suggestions.ProgressOutOfFrame | camera-photo.go:320-333 | an out-of-frame step keeps the loop invariant |
| Suggestions.ProcessPoints | camera-photo.go:299-335 | after the loop every point has been handled as in-frame or out-of-frame; old mappings keep their identity and new ones are fresh |
| Suggestions.ProcessPoint | camera-photo.go:300-334 | one loop turn keeps the loop invariant |
| Suggestions.InFramePoint | camera-photo.go:301-319 | an in-frame turn keeps the loop invariant |
| Suggestions.OutOfFramePoint | camera-photo.go:320-333 | an out-of-frame turn keeps the loop invariant |
| Suggestions.DropDangling | camera-photo.go:337-344 | exactly the suggested mappings whose point no longer exists are removed; the others are unchanged |
| Suggestions.DropDanglingData | camera-photo.go:337-344 | the same, stated on the value snapshot of the mappings |
| Suggestions.DropIfDangling | camera-photo.go:339-343 | a mapping is deleted exactly when it is suggested and its point is missing |
| Suggestions.OutcomeOfUpdate | camera-photo.go:284-345 | the loop invariant at the end, followed by the dangling sweep, gives the promised outcome |
| Suggestions.DistinctCardinality | camera-photo.go:288-293 | a list without repeats has as many elements as its set |
| Suggestions.UpdateSuggestions | camera-photo.go:284-345 | every point is visited once with the projection taken before any change, and the mappings end in the Outcome described below |
| Suggestions.ProjectPoints | camera-photo.go:288-296 | every point exactly once, with its projection into the photo |
| Suggestions.ApplySuggestions | camera-photo.go:298-344 | the suggestion loop and the dangling sweep give the Outcome for the projections |
| Survey.Site.constructor | site.go:44-61 | a new site has an identifier generator, its name and no children |
| Survey.Site.Blank | site.go:84-91 | the empty site Copy starts from has no identifier generator and no children |
| Survey.Site.NewPoint | point.go:37-50 | adds one fresh point under the key, at the origin, stamped now, not optimized |
| Survey.Site.NewLine | line.go:42-63 | adds one fresh line under the key, with direction (0,0,1) and accuracy 1° |
| Survey.Site.NewCamera | camera.go:60-78 | adds one fresh camera: angular accuracy 0.2, angle of view 1.2, centre zero and locked, coefficients zero and locked, no photos |
| Survey.Site.NewRangefinder | rangefinder.go:40-55 | adds one fresh rangefinder with accuracy 0.01 and no measurements |
| Survey.Site.NewTripod | tripod.go:43-58 | adds one fresh tripod at the origin, accuracy 0.01, zero unlocked offsets, no measurements |
| Survey.Site.RestoreChildrenRefs | site.go:117-133 | with distinct child objects, every child afterwards carries its key and refers to the site |
| Survey.Site.RestorePointsAndLines | site.go:118-123 | points and lines carry their keys and refer to the site |
| Survey.Site.RestoreDevices | site.go:124-132 | cameras, rangefinders and tripods carry their keys and refer to the site |
| Survey.Site.RestoreInstruments | site.go:127-132 | rangefinders and tripods carry their keys and refer to the site |
| Survey.Site.RestorePoints | site.go:118-120 | every point carries its key and refers to the site |
| Survey.Site.RestoreLines | site.go:121-123 | every line carries its key and refers to the site |
| Survey.Site.RestoreCameras | site.go:124-126 | every camera carries its key and refers to the site |
| Survey.Site.RestoreRangefinders | site.go:127-129 | every rangefinder carries its key and refers to the site |
| Survey.Site.RestoreTripods | site.go:130-132 | every tripod carries its key and refers to the site |
| Survey.Site.Copy | site.go:83-114 | a fresh site without an identifier generator, the same name and keys, fresh children, all restored as its children |
| Survey.Site.CopyChildren | site.go:84-108 | fresh, distinct copies under the original keys; points and lines carry the originals' data |
| Survey.Site.CopyPointsAndLines | site.go:84-99 | fresh copies of points and lines with the originals' data; no devices yet |
| Survey.Site.CopyDevicesInto | site.go:100-108 | the site receives fresh, distinct copies of cameras, rangefinders and tripods under the original keys |
| Survey.Site.CopyDevices | site.go:100-108 | fresh, distinct copies under the original keys; every camera, rangefinder and tripod copy holds its original's data, down to its photos, mappings and measurements, and the copied measurements are restored |
| Survey.Site.CopyMeasuringDevices | site.go:103-108 | the same for the rangefinders and tripods |
| Survey.Site.CopyPoints | site.go:94-96 | fresh, distinct point copies with the originals' data |
| Survey.Site.CopyLinesInto | site.go:97-99 | fresh, distinct line copies with the originals' data |
| Survey.Site.CopyCameras | site.go:100-102 | fresh, distinct camera copies, each a deep copy of the original |
| Survey.Site.AddCameraCopy | site.go:101 | adds one fresh deep copy of a camera |
| Survey.Site.CopyRangefinders | site.go:103-105 | fresh, distinct rangefinder copies, each a deep copy of the original |
| Survey.Site.AddRangefinderCopy | site.go:104 | adds one fresh deep copy of a rangefinder |
| Survey.Site.CopyTripods | site.go:106-108 | fresh, distinct tripod copies, each a deep copy of the original |
| Survey.Site.AddTripodCopy | site.go:107 | adds one fresh deep copy of a tripod |
| Survey.Site.PointsSorted | site.go:193-205 | all points, each once, by descending creation time |
| Survey.Site.LinesSorted | site.go:209-221 | all lines, each once, by descending creation time |
| Survey.Site.RangefindersSorted | site.go:225-237 | all rangefinders, each once, by descending creation time |
| Survey.Site.CamerasSorted | site.go:241-253 | all cameras, each once, by descending creation time |
| Survey.Site.TripodsSorted | site.go:257-269 | all tripods, each once, by descending creation time |
| Survey.Point.constructor | point.go:24-35 | a point with the given fields |
| Survey.Point.Delete | point.go:56-58 | removes exactly the point's key from its site |
| Survey.Point.Copy | site.go:94-96 | a fresh point with the same data, without key or site |
| Survey.Line.constructor | line.go:26-40 | an empty line: no site, no key, no ends, direction disabled |
| Survey.Line.InitData | line.go:51-55 | stamps the line and sets direction (0,0,1) and accuracy 1° |
| Survey.Line.InitReferences | line.go:60-63 | attaches the line to the site under the key |
| Survey.Line.Delete | line.go:69-71 | removes exactly the line's key from its site |
| Survey.Line.Copy | line.go:75-87 | a fresh line with the same data, attached to the new parent under the new key |
| Survey.Camera.constructor | camera.go:37-58 | a camera with the given fields |
| Survey.Camera.Delete | camera.go:112-114 | removes exactly the camera's key from its site |
| Survey.Camera.RestoreChildrenRefs | camera.go:144-148 | every photo refers to the camera, and with distinct photos each carries its key |
| Survey.Camera.Copy | camera.go:118-141 | a fresh camera with the same data and fresh, restored copies of all photos and mappings |
| Survey.Camera.RestoreCopiedPhotos | camera.go:137-138 | the photo copies are restored in the camera copy and keep the originals' data |
| Survey.Camera.CopyPhotos | camera.go:132-135 | fresh, distinct deep copies of the photos under the original keys |
| Survey.Camera.AddPhotoCopy | camera.go:133-134 | adds one fresh deep copy of a photo |
| Survey.Camera.NewPhoto | camera-photo.go:54-75 | an image that fails to decode adds nothing; otherwise one fresh photo of the decoded size, at the origin, without mappings |
| Survey.Camera.PhotosSorted | camera.go:182-185 | all photos, each once, by descending creation time |
| Survey.CameraPhoto.constructor | camera-photo.go:32-52 | a photo with the given fields |
| Survey.CameraPhoto.Delete | camera-photo.go:81-87 | removes exactly the photo's key from its camera |
| Survey.CameraPhoto.RestoreChildrenRefs | camera-photo.go:115-119 | every mapping refers to the photo, and with distinct mappings each carries its key |
| Survey.CameraPhoto.Copy | camera-photo.go:91-112 | a fresh photo with the same data and fresh, restored mapping copies |
| Survey.CameraPhoto.CopyMappingsInto | camera-photo.go:103-106 | fresh copies of all mappings under the original keys, attached to the copy |
| Survey.CameraPhoto.AddMappingCopy | camera-photo.go:104-106 | adds one fresh copy of a mapping |
| Survey.CameraPhoto.NewMapping | camera-photo-mapping.go:39-58 | adds one fresh, unsuggested, empty mapping stamped now |
| Survey.CameraPhotoMapping.constructor | camera-photo-mapping.go:24-37 | an empty mapping: no photo, key or point, zero positions, not suggested |
| Survey.CameraPhotoMapping.InitData | camera-photo-mapping.go:48-50 | stamps the mapping |
| Survey.CameraPhotoMapping.InitReferences | camera-photo-mapping.go:55-58 | attaches the mapping to the photo under the key |
| Survey.CameraPhotoMapping.Delete | camera-photo-mapping.go:64-66 | removes exactly the mapping's key from its photo |
| Survey.CameraPhotoMapping.Copy | camera-photo-mapping.go:70-82 | a fresh mapping with the same data, attached to the new parent under the new key |
| Survey.Rangefinder.constructor | rangefinder.go:26-38 | a rangefinder with the given fields |
| Survey.Rangefinder.Delete | rangefinder.go:67-69 | removes exactly the rangefinder's key from its site |
| Survey.Rangefinder.RestoreChildrenRefs | rangefinder.go:79-81 | every measurement refers to the rangefinder, and with distinct measurements each carries its key |
| Survey.Rangefinder.Copy | site.go:103-105 | a fresh rangefinder with the same data and fresh, restored measurement copies |
| Survey.Rangefinder.CopyMeasurements | site.go:103-105 | fresh, distinct measurement copies with the originals' data |
| Survey.Rangefinder.NewMeasurement | rangefinder-measurement.go:36-48 | adds one fresh measurement without points, distance 0, stamped now |
| Survey.Rangefinder.MeasurementsSorted | rangefinder.go:98-110 | all measurements, each once, by descending creation time |
| Survey.RangefinderMeasurement.constructor | rangefinder-measurement.go:24-34 | a measurement with the given fields |
| Survey.RangefinderMeasurement.Delete | rangefinder-measurement.go:54-56 | removes exactly the measurement's key from its rangefinder |
| Survey.RangefinderMeasurement.Copy | rangefinder-measurement.go:60-67 | a fresh measurement with the same data, without key or parent |
| Survey.Tripod.constructor | tripod.go:26-41 | a tripod with the given fields |
| Survey.Tripod.Delete | tripod.go:70-72 | removes exactly the tripod's key from its site |
| Survey.Tripod.RestoreChildrenRefs | tripod.go:101-105 | every measurement refers to the tripod, and with distinct measurements each carries its key |
| Survey.Tripod.Copy | tripod.go:76-98 | a fresh tripod with the same data and fresh, restored measurement copies |
| Survey.Tripod.CopyMeasurements | tripod.go:89-92 | fresh, distinct measurement copies with the originals' data |
| Survey.Tripod.NewMeasurement | tripod-measurement.go:37-49 | adds one fresh measurement without a point, distance 0, stamped now |
| Survey.Tripod.MeasurementsSorted | tripod.go:144-156 | all measurements, each once, by descending creation time |
| Survey.TripodMeasurement.constructor | tripod-measurement.go:25-35 | a measurement with the given fields |
| Survey.TripodMeasurement.Delete | tripod-measurement.go:55-57 | removes exactly the measurement's key from its tripod |
| Survey.TripodMeasurement.Copy | tripod.go:90-92 | a fresh measurement with the same data, without key or parent |
| ObjExport.Positions | obj-export.go:25-28 | the positions of the listed points, in listing order |
| ObjExport.Indexed | obj-export.go:23-27 | every vertex number lies between 1 and the number of listed points |
| ObjExport.ObjText | obj-export.go:22-42 | the exported text starts with the points header |
| ObjExport.ListPoints | obj-export.go:22-29 | lists every point once, numbers them from 1 in listing order, and writes one vertex line each |
| ObjExport.ListRangefinder | obj-export.go:33-41 | visits each of one rangefinder's measurements once and writes the segment lines for them |
| ObjExport.ListMeasurements | obj-export.go:31-42 | visits every measurement of every rangefinder once and writes the segment lines for them |
| ObjExport.GenerateObj | obj-export.go:21-45 | the export is the points header, one vertex per point, the measurements header, and one segment per measurement whose points both exist |
| ObjExport.ListingDistinct | obj-export.go:25 | a listing of map keys has no repeats |
| ObjExport.PointsNumbered | obj-export.go:23-29 | exactly the points are numbered; the i-th listed point gets i+1, and every number is at most the number of points |
| ObjExport.SegmentsCount | obj-export.go:32-42 | at most one segment per measurement, and one for each exactly when every measurement's points exist |
| ObjExport.SegmentsComplete | obj-export.go:34-39 | every measurement whose two points are numbered gets its segment |
| ObjExport.SegmentsSound | obj-export.go:34-39 | every segment comes from a measurement whose two points are numbered |
| ObjExport.SegmentsJoinMeasuredPoints | obj-export.go:32-42 | every segment joins two valid vertex numbers whose points are the ends of some measurement |
| ObjExport.IndexedKeys | obj-export.go:23-27 | exactly the listed keys are numbered |
| ObjExport.IndexedNumbers | obj-export.go:24-27 | in a listing without repeats the i-th key gets number i+1 |
| ObjExport.VertexLineInjective | obj-export.go:28 | with the component values formatted, two vertex lines are equal exactly when the formatted components are |
| ObjExport.VertexLineAsWrittenLosesPosition | obj-export.go:28 | as written, (0,0,0) and (1,0,0) give the same vertex line, while the intended lines differ |
| PhotoCanvas.Clamped | camera-photo-component.go:314-318 | the scale is clamped to [0.01, 10]; a scale already in range is kept |
| PhotoCanvas.ClampedIdempotent | camera-photo-component.go:314-318 | clamping twice is clamping once |
| PhotoCanvas.Stretched | camera-photo-component.go:297 | x / y * z with Go's float division: a finite quotient for a non-zero y, x itself when y == z, NaN for 0/0 |
| PhotoCanvas.CameraPhotoComponent.constructor | camera-photo-component.go:30-48 | a component as Go's zero value leaves it: scale, origin and sizes zero |
| PhotoCanvas.CameraPhotoComponent.TransformDOMToCanvas | camera-photo-component.go:296-298 | with non-zero DOM sizes, the coordinates are stretched by canvas/DOM size; with equal sizes (canvasCreated, lines 55-57) nothing moves; a zero size gives NaN at 0 |
| PhotoCanvas.CameraPhotoComponent.TransformCanvasToVirtual | camera-photo-component.go:301-303 | with a non-zero scale the result is finite and maps back onto the canvas point; a zero scale gives NaN at the origin |
| PhotoCanvas.CameraPhotoComponent.TransformVirtualToCanvas | camera-photo-component.go:306-308 | at scale 1 a virtual coordinate is only shifted by the origin |
| PhotoCanvas.CameraPhotoComponent.SetScale | camera-photo-component.go:312-324 | the new scale is the clamped request, and the pivot stays at the same canvas position |
| PhotoCanvas.CameraPhotoComponent.MappingDistSqr | camera-photo-component.go:342-343 | a squared canvas distance is never negative |
| PhotoCanvas.CameraPhotoComponent.GetClosestMapping | camera-photo-component.go:338-350 | nil exactly when no mapping is strictly closer than maxDistSqr; otherwise a closest mapping, its key and its squared distance |
| PhotoCanvas.PivotStays | camera-photo-component.go:321-323 | moving the origin by pivot · (old scale - new scale) keeps the pivot's canvas position |
| PhotoCanvas.CanvasVirtualRoundTrip | camera-photo-component.go:301-308 | with a scale set, the canvas-to-virtual and virtual-to-canvas transforms undo each other, in both orders |
| PhotoCanvas.ValidScaleNonZero | camera-photo-component.go:301-324 | after any setScale the scale is non-zero, so canvas-to-virtual is always finite |

`Suggestions.UpdateSuggestions` models `CameraPhoto.UpdateSuggestions`. It
states the following:

- the points are visited once each;
- each point's projection is the one computed before any change;
- the resulting mappings satisfy `Outcome`:
  - every point projected into the image has a mapping that refers to it
    and records the projection;
  - for a point projected outside the image, its suggested mapping is
    gone, or its user-placed mapping records the projection;
  - user-placed mappings stay, with their point and their position;
  - mappings that stay keep their creation time;
  - every new mapping is the suggested one for its point, stamped now;
  - no suggested mapping refers to a missing point;
  - every mapping chosen for no point is kept unchanged unless it dangles;
- the photo's mappings stay restored.

## Left out

- Optimizer.WriteParameters: when the same tweakable appears twice in the list, only its last write is stated; the site never lists a value twice.
- Optimizer.Solve: the solver is a parameter that proposes the next parameter vector from the history and yields the result. The Levenberg-Marquardt internals are not modelled: numeric Jacobian, Tau, Eps1/Eps2, iteration limit, objective tolerance. A solver error is only logged by the source and is not modelled.
- Optimizer.Optimize: the UI ticker, the sleeps, `stopFunc`, the site lock and the goroutine that runs the optimizer (optimizer-state.go) are concurrency and timing, and are not modelled.
- Survey.Site.Copy: states the name, keys, freshness and restored references of the copy, but not that each copied entity holds its original's data. That is stated before the references are restored: for points and lines by Survey.Site.CopyChildren, and for cameras (with photos and mappings), rangefinders and tripods (with measurements) by Survey.Site.CopyDevices. Carrying those facts across the field writes and RestoreChildrenRefs is beyond the proof budget of this model.
- Survey.Site.CopyChildren: states that the copied points and lines hold their originals' data, but for cameras, rangefinders and tripods only their keys, freshness and distinctness; their data is stated by Survey.Site.CopyDevices, for the maps this method installs.
- Survey.Site.CopyDevicesInto: installs the maps returned by Survey.Site.CopyDevices, but states only their keys, freshness and distinctness once installed, not that each copy holds its original's data; that fact does not survive the field writes within the proof budget.
- Optimizer.Optimize: runs the intended guard, Optimizer.Guard, which reports missing residuals. The second guard as written (optimizer.go:104-106) tests the tweakables again; that behaviour is Optimizer.GuardAsWritten, see Findings.
- Optimizer.GuardedSolve: runs the intended guard, Optimizer.Guard, which reports missing residuals. The second guard as written (optimizer.go:104-106) tests the tweakables again; that behaviour is Optimizer.GuardAsWritten, see Findings.
- ObjExport.GenerateObj: builds its vertex lines with ObjExport.VertexLine, the intended form, which formats the coordinate values. The code as written formats method values (obj-export.go:28); that behaviour is ObjExport.VertexLineAsWritten, see Findings.
- Survey.Site.NewPoint, Survey.Site.NewLine, Survey.Site.NewCamera, Survey.Site.NewRangefinder, Survey.Site.NewTripod, Survey.Camera.NewPhoto, Survey.CameraPhoto.NewMapping, Survey.Rangefinder.NewMeasurement and Survey.Tripod.NewMeasurement require an identifier generator. On a site made by Copy, which has none, the source dereferences a nil generator; that failure is not modelled.
- Flattening.SiteTweakablesAndResiduals: the site-level valid order states every list newest first and every photo or measurement listed once. That each camera's photos and each tripod's measurements are themselves newest first is stated per entity, by Flattening.CameraTweakablesAndResiduals and Flattening.TripodTweakablesAndResiduals.
- Survey.Site.RestoreChildrenRefs: restoredness is promised for distinct child objects, which is what every copy and every decode produces. When one object sits under two keys, the last write wins; this is not stated.
- Distortion.Distort: a radial scaling of exactly zero ends the computation with None. Go goes on with an infinite or NaN radius instead.
- Numerics: the camera projection and unprojection maths (camera-photo.go:226-281, via mgl64 matrices), `math.Sqrt` and `math.Acos` are parameters with stated laws, not computed.
- Floats: float64 values are reals without rounding; only the specials (±Inf, NaN) are modelled. Float64 addition is not associative, so the order-independence of sums (Floats.SumPermutation, Residuals.PhotoResidualOrderFree) holds for the model's exact reals, not bit for bit for the float64 sums over Go's randomised map order.
- JSON encoding and decoding of the site is not modelled beyond the RestoreChildrenRefs methods that run after decoding.
- Key generation (shortid) is modelled as fresh keys passed in; `time.Now` is an integer `now` passed in.
- Text formatting (`%f`, `%d`, `%.13g`) and `strconv.ParseFloat` are parameters.
- PixelCoordinate's Scaled, LengthSqr and IsZero are not in pixel-coordinate.go. They are defined componentwise, as camera.go uses them.
- Flattening.PointsTweakables: point.go:74 and tripod.go:136 call `Coordinate.GetTweakablesAndResiduals`, which no source file defines (coordinate.go has only the component, distance and arithmetic methods). The model treats a point's or a tripod's position as three Distance components, each an unlocked tweakable (Flattening.PointsTweakables, Flattening.TripodTweakablesAndResiduals). camera-photo.go:183 and 292 read `Position.Coordinate`, which suggests these positions may be CoordinateOptimizable; if so, their per-axis locks are not modelled.
- CoordinateOptimizable and RotationOptimizable are not part of this model. Photo position and orientation are flattened as three plain components each, without per-axis locks.
- Rotation is a plain triple of Euler angles, not normalised.
- Point, Rangefinder and TripodMeasurement have no Copy method among the source files; their copies are modelled on the pattern of the other Copy methods. Line.Copy (line.go:75) and CameraPhotoMapping.Copy (camera-photo-mapping.go:70) are declared with a new parent and a new key, but their call sites (site.go:98, camera-photo.go:105) pass no arguments. The model passes the new site or photo and the map key.
- TweakablePositiveFloat is not part of this model.
- The UI components, canvas drawing, page handlers, router, downloads and the dev server are not modelled.
- Distance-Measurement.go, room.go and camera-photo-point.go are unused code and are not modelled.

## Findings

| source | as written | input that shows it | evidently intended | confidence | as-written member | corrected member |
|---|---|---|---|---|---|---|
| optimizer.go:104-106 | the second guard tests `len(tweakables) == 0` again | a site with one unlocked point and no lines, cameras or measurements: 3 tweakables, 0 residuals | report "there are no residuals to be determined" when `len(residuals) == 0` | not executed | Optimizer.GuardAsWrittenPassesNoResiduals | Optimizer.Guard |
| obj-export.go:28 | passes the method values `point.Position.X`, `.Y`, `.Z` (not their results) to `%f` | points at (0,0,0) and (1,0,0): both get the same vertex line | format the component values `X()`, `Y()`, `Z()` | not executed | ObjExport.VertexLineAsWrittenLosesPosition | ObjExport.VertexLineInjective |
