/** camera-photo-component.go: the zoomable canvas that shows a camera photo
    and its point mappings. Three coordinate systems meet here:

    - DOM coordinates, relative to the top left of the canvas element in
      DOM pixels;
    - canvas coordinates, in the canvas' own pixels;
    - virtual coordinates, the pixels of the photo itself.

    DOM coordinates are stretched to canvas coordinates by the ratio of the
    two sizes; a virtual coordinate v sits at v · scale + origin on the
    canvas. Zooming sets a new scale, clamped to [0.01, 10], and moves the
    origin so that a chosen pivot stays where it is on the canvas.

    Go's float division by zero yields an infinity or NaN instead of failing;
    the two transforms that divide return Floats.Float values. */
module PhotoCanvas {
  import opened Wrappers
  import Floats
  import opened PixelDistances
  import opened PixelCoordinates
  import opened Survey

  /** The largest and the smallest scale setScale lets through. */
  const MaxScale: real := 10.0
  const MinScale: real := 0.01

  /** camera-photo-component.go:314-318: a requested scale clamped to
      [MinScale, MaxScale]; a scale already in range is kept. */
  function Clamped(s: real): (r: real)
    ensures MinScale <= r <= MaxScale
    ensures MinScale <= s <= MaxScale ==> r == s
    ensures s > MaxScale ==> r == MaxScale
    ensures s < MinScale ==> r == MinScale
  {
    if s > MaxScale then MaxScale
    else if s < MinScale then MinScale
    else s
  }

  /** Clamping a clamped scale changes nothing. */
  lemma ClampedIdempotent(s: real)
    ensures Clamped(Clamped(s)) == Clamped(s)
  {
  }

  /** x / y * z in Go's float arithmetic. */
  function Stretched(x: real, y: real, z: real): (r: Floats.Float)
    ensures y != 0.0 ==> r == Floats.Fin(x / y * z)
    ensures y != 0.0 && y == z ==> r == Floats.Fin(x)
    ensures y == 0.0 && x == 0.0 ==> r.NaN?
  {
    var r := Floats.Mul(Floats.Div(Floats.Fin(x), Floats.Fin(y)), Floats.Fin(z));
    if y != 0.0 then QuotientTimes(x, y); r else r
  }

  class CameraPhotoComponent {
    var photo: CameraPhoto
    /** Canvas pixels per virtual (photo) pixel. */
    var scale: real
    /** The origin in canvas coordinates. */
    var originX: PixelDistance
    var originY: PixelDistance
    /** The canvas size, counted in canvas pixels. */
    var canWidth: PixelDistance
    var canHeight: PixelDistance
    /** The canvas size as laid out on the page, in DOM pixels. */
    var canWidthDOM: PixelDistance
    var canHeightDOM: PixelDistance

    /** A component as it starts: no scale yet, origin and sizes zero. */
    constructor (photo: CameraPhoto)
      ensures this.photo == photo && scale == 0.0
      ensures originX == 0.0 && originY == 0.0
      ensures canWidth == 0.0 && canHeight == 0.0 && canWidthDOM == 0.0 && canHeightDOM == 0.0
    {
      this.photo := photo;
      scale := 0.0;
      originX, originY := 0.0, 0.0;
      canWidth, canHeight, canWidthDOM, canHeightDOM := 0.0, 0.0, 0.0, 0.0;
    }

    /** The scale is one setScale can leave behind. */
    ghost predicate Valid()
      reads this
    {
      MinScale <= scale <= MaxScale
    }

    /** camera-photo-component.go:296-298: transformDOMToCanvas. With the
        canvas as large in canvas pixels as in DOM pixels, as canvasCreated
        sets it up, nothing moves; a zero DOM size, before canvasCreated
        has run, divides by zero. */
    function TransformDOMToCanvas(xDOM: PixelDistance, yDOM: PixelDistance): (r: (Floats.Float, Floats.Float))
      reads this
      ensures canWidthDOM != 0.0 && canHeightDOM != 0.0 ==>
                r.0 == Floats.Fin(xDOM / canWidthDOM * canWidth) && r.1 == Floats.Fin(yDOM / canHeightDOM * canHeight)
      ensures canWidthDOM == canWidth != 0.0 && canHeightDOM == canHeight != 0.0 ==>
                r.0 == Floats.Fin(xDOM) && r.1 == Floats.Fin(yDOM)
      ensures canWidthDOM == 0.0 && xDOM == 0.0 ==> r.0.NaN?
    {
      (Stretched(xDOM, canWidthDOM, canWidth), Stretched(yDOM, canHeightDOM, canHeight))
    }

    /** camera-photo-component.go:301-303: transformCanvasToVirtual. It
        divides by the scale, which is zero before the first setScale. */
    function TransformCanvasToVirtual(xCan: PixelDistance, yCan: PixelDistance): (r: (Floats.Float, Floats.Float))
      reads this
      ensures scale != 0.0 ==>
                r.0.Fin? && r.1.Fin? && r.0.v * scale + originX == xCan && r.1.v * scale + originY == yCan
      ensures scale == 0.0 && xCan == originX ==> r.0.NaN?
    {
      (Floats.Div(Floats.Fin(xCan - originX), Floats.Fin(scale)), Floats.Div(Floats.Fin(yCan - originY), Floats.Fin(scale)))
    }

    /** camera-photo-component.go:306-308: transformVirtualToCanvas. */
    function TransformVirtualToCanvas(xVir: PixelDistance, yVir: PixelDistance): (r: (PixelDistance, PixelDistance))
      reads this
      ensures scale == 1.0 ==> r.0 == xVir + originX && r.1 == yVir + originY
    {
      (xVir * scale + originX, yVir * scale + originY)
    }

    /** camera-photo-component.go:312-324: setScale. The new scale is the
        requested one clamped to [MinScale, MaxScale], and the origin moves
        so that the pivot, given in virtual coordinates, stays at the same
        canvas position. */
    method SetScale(newScale: real, xPivot: PixelDistance, yPivot: PixelDistance)
      modifies this`scale, this`originX, this`originY
      ensures Valid() && scale == Clamped(newScale)
      ensures originX == old(originX) + xPivot * (old(scale) - scale)
      ensures originY == old(originY) + yPivot * (old(scale) - scale)
      ensures TransformVirtualToCanvas(xPivot, yPivot).0 == old(TransformVirtualToCanvas(xPivot, yPivot).0)
      ensures TransformVirtualToCanvas(xPivot, yPivot).1 == old(TransformVirtualToCanvas(xPivot, yPivot).1)
    {
      var clamped := newScale;
      if clamped > 10.0 {
        clamped := 10.0;
      } else if clamped < 0.01 {
        clamped := 0.01;
      }
      PivotStays(xPivot, scale, clamped, originX);
      PivotStays(yPivot, scale, clamped, originY);
      originX, originY := originX + xPivot * (scale - clamped), originY + yPivot * (scale - clamped);
      scale := clamped;
    }

    /** The squared canvas distance between the canvas point (xCan, yCan)
        and where mapping m's position is drawn. */
    function MappingDistSqr(m: CameraPhotoMapping, xCan: PixelDistance, yCan: PixelDistance): (r: real)
      reads this, m`position
      ensures r >= 0.0
    {
      var p := TransformVirtualToCanvas(m.position.X(), m.position.Y());
      Sqr(p.0 - xCan) + Sqr(p.1 - yCan)
    }

    /** camera-photo-component.go:338-350: getClosestMapping. The mapping
        of the photo drawn closest to (xCan, yCan), provided it is strictly
        closer than the square root of maxDistSqr; None (Go's nil), "" and
        maxDistSqr when there is no such mapping. Among mappings at the same
        distance the first one the map iteration visits wins. */
    method GetClosestMapping(xCan: PixelDistance, yCan: PixelDistance, maxDistSqr: real)
        returns (minMapping: Option<CameraPhotoMapping>, minKey: string, minDistSqr: real)
      ensures minMapping.None? <==>
                forall k :: k in photo.mappings ==> MappingDistSqr(photo.mappings[k], xCan, yCan) >= maxDistSqr
      ensures minMapping.None? ==> minKey == "" && minDistSqr == maxDistSqr
      ensures minMapping.Some? ==>
                minKey in photo.mappings && minMapping.value == photo.mappings[minKey] &&
                minDistSqr == MappingDistSqr(minMapping.value, xCan, yCan) && minDistSqr < maxDistSqr &&
                forall k :: k in photo.mappings ==> minDistSqr <= MappingDistSqr(photo.mappings[k], xCan, yCan)
    {
      minMapping, minKey, minDistSqr := None, "", maxDistSqr;
      var mappings := photo.mappings;
      var todo := mappings.Keys;
      while todo != {}
        invariant todo <= mappings.Keys
        invariant minDistSqr <= maxDistSqr
        invariant forall k :: k in mappings && k !in todo ==> minDistSqr <= MappingDistSqr(mappings[k], xCan, yCan)
        invariant minMapping.None? ==> minKey == "" && minDistSqr == maxDistSqr
        invariant minMapping.Some? ==>
                    minKey in mappings && minKey !in todo && minMapping.value == mappings[minKey] &&
                    minDistSqr == MappingDistSqr(minMapping.value, xCan, yCan) && minDistSqr < maxDistSqr
        decreases |todo|
      {
        var key :| key in todo;
        var mapping := mappings[key];
        var p := TransformVirtualToCanvas(mapping.position.X(), mapping.position.Y());
        var distSqr := Sqr(p.0 - xCan) + Sqr(p.1 - yCan);
        if minDistSqr > distSqr {
          minDistSqr, minKey, minMapping := distSqr, key, Some(mapping);
        }
        todo := todo - {key};
      }
    }
  }

  /** The arithmetic behind setScale's origin update: moving the origin by
      pivot · (old scale - new scale) keeps pivot · scale + origin. */
  lemma PivotStays(pivot: real, oldScale: real, newScale: real, origin: real)
    ensures pivot * newScale + (origin + pivot * (oldScale - newScale)) == pivot * oldScale + origin
  {
    assert pivot * (oldScale - newScale) == pivot * oldScale - pivot * newScale;
  }

  /** camera-photo-component.go:301-308: with a scale set, the two
      transforms between canvas and virtual coordinates undo each other. */
  lemma CanvasVirtualRoundTrip(c: CameraPhotoComponent, x: PixelDistance, y: PixelDistance)
    requires c.scale != 0.0
    ensures var can := c.TransformVirtualToCanvas(x, y);
            c.TransformCanvasToVirtual(can.0, can.1).0 == Floats.Fin(x) &&
            c.TransformCanvasToVirtual(can.0, can.1).1 == Floats.Fin(y)
    ensures var vir := c.TransformCanvasToVirtual(x, y);
            vir.0.Fin? && vir.1.Fin? &&
            c.TransformVirtualToCanvas(vir.0.v, vir.1.v).0 == x && c.TransformVirtualToCanvas(vir.0.v, vir.1.v).1 == y
  {
    var can := c.TransformVirtualToCanvas(x, y);
    QuotientOfScaled(x, c.scale);
    QuotientOfScaled(y, c.scale);
    assert can.0 - c.originX == x * c.scale;
    assert can.1 - c.originY == y * c.scale;
    QuotientTimes(x - c.originX, c.scale);
    QuotientTimes(y - c.originY, c.scale);
  }

  lemma QuotientTimes(x: real, s: real)
    requires s != 0.0
    ensures x / s * s == x
  {
  }

  lemma QuotientOfScaled(x: real, s: real)
    requires s != 0.0
    ensures x * s / s == x
  {
  }

  /** After any setScale the scale is valid, so the canvas-to-virtual
      transform never divides by zero. */
  lemma ValidScaleNonZero(c: CameraPhotoComponent)
    requires c.Valid()
    ensures c.scale != 0.0
    ensures forall x, y :: c.TransformCanvasToVirtual(x, y).0.Fin? && c.TransformCanvasToVirtual(x, y).1.Fin?
  {
  }
}
