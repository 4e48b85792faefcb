/**
 * The navigation rule goToCoordinates(x, y, zoomLevelOrFactor): pixel
 * coordinates go through the viewer's conversion to viewport coordinates,
 * and the zoom argument is a fraction of the maximum zoom when it is at
 * most 1.0 and an absolute zoom level otherwise. The pan and the zoom
 * are requested with `immediately` set, so they have no animation and the
 * new camera is the whole effect.
 */
module Navigation {

  /** A point, in image pixels or in normalised viewport coordinates. */
  datatype Point = Point(x: real, y: real)

  /**
   * OpenSeadragon's viewport.imageToViewportCoordinates. Its geometry belongs
   * to the viewer, so the model leaves it arbitrary.
   */
  type Conversion = (real, real) -> Point

  /** The two readings of goToCoordinates' zoom argument. */
  datatype ZoomSpec = Factor(fraction: real) | Level(level: real)

  /** The argument is a factor exactly when it is at most 1.0; 1.0 itself is a factor. */
  function Classify(zoomLevelOrFactor: real): (z: ZoomSpec)
    ensures z.Factor? <==> zoomLevelOrFactor <= 1.0
    ensures z == Factor(zoomLevelOrFactor) || z == Level(zoomLevelOrFactor)
  {
    if zoomLevelOrFactor <= 1.0 then Factor(zoomLevelOrFactor) else Level(zoomLevelOrFactor)
  }

  /** The absolute zoom level a reading stands for. Only a factor consults the maximum zoom. */
  function Effective(z: ZoomSpec, maxZoom: real): real {
    match z
    case Factor(f) => maxZoom * f
    case Level(l) => l
  }

  /** The targetZoom that goToCoordinates hands to zoomTo. */
  function TargetZoom(zoomLevelOrFactor: real, maxZoom: real): (r: real)
    ensures zoomLevelOrFactor <= 1.0 ==> r == maxZoom * zoomLevelOrFactor
    ensures 1.0 < zoomLevelOrFactor ==> r == zoomLevelOrFactor
  {
    Effective(Classify(zoomLevelOrFactor), maxZoom)
  }

  /** The part of the viewer's state that navigation changes: where it is centred and how far it is zoomed in. */
  datatype Camera = Camera(center: Point, zoom: real)

  /**
   * The end state of goToCoordinates(x, y, zoomLevelOrFactor) on a viewer
   * whose world holds itemCount items, with maximum zoom maxZoom, that
   * shows cam before the call.
   */
  function GoTo(itemCount: nat, maxZoom: real, toViewport: Conversion, cam: Camera,
                x: real, y: real, zoomLevelOrFactor: real): (r: Camera)
    ensures itemCount == 0 ==> r == cam
    ensures itemCount > 0 ==>
      r.center == toViewport(x, y) && r.zoom == TargetZoom(zoomLevelOrFactor, maxZoom)
  {
    if itemCount == 0 then cam
    else Camera(toViewport(x, y), TargetZoom(zoomLevelOrFactor, maxZoom))
  }

  /** Exactly 1.0 is read as the whole maximum zoom. */
  lemma FactorBoundary(maxZoom: real)
    ensures Classify(1.0) == Factor(1.0)
    ensures TargetZoom(1.0, maxZoom) == maxZoom
  {
  }

  /**
   * The boundary ambiguity: an absolute level of 1 cannot be asked for as
   * 1, since 1.0 is read as a factor and gives maxZoom.
   */
  lemma LevelOneIsReadAsFactor(maxZoom: real)
    requires maxZoom != 1.0
    ensures TargetZoom(1.0, maxZoom) != 1.0
  {
  }

  /** Above 1.0 the maximum zoom is not consulted. */
  lemma LevelIgnoresMaxZoom(zoomLevelOrFactor: real, maxZoom1: real, maxZoom2: real)
    requires 1.0 < zoomLevelOrFactor
    ensures TargetZoom(zoomLevelOrFactor, maxZoom1) == TargetZoom(zoomLevelOrFactor, maxZoom2)
  {
  }

  /** A factor between 0 and 1 gives a level between 0 and the maximum zoom, and that level grows with the factor. */
  lemma FactorWithinMaxZoom(f: real, g: real, maxZoom: real)
    requires 0.0 <= f <= g <= 1.0 && 0.0 <= maxZoom
    ensures 0.0 <= TargetZoom(f, maxZoom) <= TargetZoom(g, maxZoom) <= maxZoom
  {
    ProductNonNegative(maxZoom, f);
    ProductNonNegative(maxZoom, g - f);
    ProductNonNegative(maxZoom, 1.0 - g);
    assert maxZoom * (g - f) == maxZoom * g - maxZoom * f;
    assert maxZoom * (1.0 - g) == maxZoom - maxZoom * g;
  }

  lemma ProductNonNegative(a: real, b: real)
    requires 0.0 <= a && 0.0 <= b
    ensures 0.0 <= a * b
  {
  }

  /** Before an item is loaded, navigation changes nothing. */
  lemma GoToBeforeLoadIsNoOp(maxZoom: real, toViewport: Conversion, cam: Camera,
                             x: real, y: real, zoomLevelOrFactor: real)
    ensures GoTo(0, maxZoom, toViewport, cam, x, y, zoomLevelOrFactor) == cam
  {
  }

  /** Once an item is loaded, the end state does not depend on the state navigation started from. */
  lemma GoToConverges(itemCount: nat, maxZoom: real, toViewport: Conversion, cam1: Camera, cam2: Camera,
                      x: real, y: real, zoomLevelOrFactor: real)
    requires itemCount > 0
    ensures GoTo(itemCount, maxZoom, toViewport, cam1, x, y, zoomLevelOrFactor)
         == GoTo(itemCount, maxZoom, toViewport, cam2, x, y, zoomLevelOrFactor)
  {
  }

  /** Repeating a navigation lands where the first one did. */
  lemma GoToIdempotent(itemCount: nat, maxZoom: real, toViewport: Conversion, cam: Camera,
                       x: real, y: real, zoomLevelOrFactor: real)
    ensures var once := GoTo(itemCount, maxZoom, toViewport, cam, x, y, zoomLevelOrFactor);
            GoTo(itemCount, maxZoom, toViewport, once, x, y, zoomLevelOrFactor) == once
  {
  }
}
