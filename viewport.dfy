/**
 * The part of an OpenSeadragon viewer that the page script touches: the
 * number of items in its world, its maximum zoom, the centre and zoom of
 * its viewport, its overlays, and the coordinate conversion. Tiling and
 * rendering are not modelled. The page calls panTo and zoomTo with their
 * `immediately` argument true, so each takes effect at once, without an
 * animation.
 */
module Viewport {
  import opened Navigation
  import opened Pois

  /** A snapshot of a viewer, for the specifications. */
  datatype ViewerState = ViewerState(itemCount: nat, maxZoom: real, camera: Camera, overlays: seq<Marker>)

  class Viewer {
    /** viewport.imageToViewportCoordinates, fixed for the viewer's lifetime. */
    const toViewport: Conversion
    /** world.getItemCount() */
    var itemCount: nat
    /** viewport.getMaxZoom() */
    var maxZoom: real
    var center: Point
    var zoom: real
    /** The overlays added with addOverlay, in the order they were added. */
    var overlays: seq<Marker>

    constructor (toViewport: Conversion, itemCount: nat, maxZoom: real, center: Point, zoom: real)
      ensures this.toViewport == toViewport
      ensures State() == ViewerState(itemCount, maxZoom, Camera(center, zoom), [])
    {
      this.toViewport := toViewport;
      this.itemCount := itemCount;
      this.maxZoom := maxZoom;
      this.center := center;
      this.zoom := zoom;
      this.overlays := [];
    }

    function State(): ViewerState
      reads this
    {
      ViewerState(itemCount, maxZoom, Camera(center, zoom), overlays)
    }

    function GetItemCount(): nat
      reads this
    {
      itemCount
    }

    function GetMaxZoom(): real
      reads this
    {
      maxZoom
    }

    function ImageToViewportCoordinates(x: real, y: real): Point {
      toViewport(x, y)
    }

    /** panTo(point): the viewport ends centred on point, at the same zoom. */
    method PanTo(point: Point)
      modifies this
      ensures State() == old(State()).(camera := Camera(point, old(zoom)))
    {
      center := point;
    }

    /**
     * zoomTo(level, refPoint): the viewport ends at the given zoom, with
     * refPoint kept where it was on screen. The page passes the point it
     * has just panned to, which is the centre, so the centre stays put.
     * Zooming about any other point is not modelled.
     */
    method ZoomTo(level: real, refPoint: Point)
      requires refPoint == center
      modifies this
      ensures State() == old(State()).(camera := Camera(old(center), level))
    {
      zoom := level;
    }

    /** addOverlay({element, location, placement: CENTER}) */
    method AddOverlay(marker: Marker)
      modifies this
      ensures State() == old(State()).(overlays := old(overlays) + [marker])
    {
      overlays := overlays + [marker];
    }
  }
}
