/**
 * Points of interest as the dataset describes them, and what registration
 * makes of each one. Each record gets an overlay marker anchored at
 * (x/z, y/z) and a menu card. The click handlers of both close over the
 * record itself.
 */
module Pois {
  import opened Wrappers
  import opened Navigation

  /** One record of the POI dataset, already decoded. Only `zoom` and `short` may be missing. */
  datatype Poi = Poi(x: real, y: real, z: real, zoom: Option<real>,
                     title: string, description: string, short: Option<string>)

  /** The zoom used when a POI's record has none. */
  const DefaultPoiZoom: real := 5.0

  /** `poi.zoom || 5`: a missing zoom, or the falsy zoom 0, becomes 5. */
  function ZoomOrDefault(zoom: Option<real>): (r: real)
    ensures r != 0.0
    ensures zoom.Some? && zoom.value != 0.0 ==> r == zoom.value
    ensures zoom.None? || zoom == Some(0.0) ==> r == DefaultPoiZoom
  {
    if zoom.Some? && zoom.value != 0.0 then zoom.value else DefaultPoiZoom
  }

  /** `poi.short || ""`: the card's summary line. */
  function Summary(short: Option<string>): (r: string)
    ensures short.Some? ==> r == short.value
    ensures short.None? ==> r == ""
  {
    short.GetOr("")
  }

  /** The overlay anchor (x/z, y/z): the point that, scaled back by z, is the record's (x, y). */
  function Anchor(poi: Poi): (p: Point)
    requires poi.z != 0.0
    ensures p.x * poi.z == poi.x && p.y * poi.z == poi.y
  {
    Point(poi.x / poi.z, poi.y / poi.z)
  }

  /** The point a click on the POI's marker or card navigates to: the raw (x, y). */
  function Target(poi: Poi): Point {
    Point(poi.x, poi.y)
  }

  /** An overlay marker: where the viewer pins it (at its centre) and the record its click handler closes over. */
  datatype Marker = Marker(location: Point, poi: Poi)

  /** A menu card: its heading, its summary line and the record its click handler closes over. */
  datatype Card = Card(heading: string, summary: string, poi: Poi)

  function MarkerFor(poi: Poi): (m: Marker)
    requires poi.z != 0.0
    ensures m.poi == poi && m.location == Anchor(poi)
  {
    Marker(Anchor(poi), poi)
  }

  function CardFor(poi: Poi): (c: Card)
    ensures c.poi == poi && c.heading == poi.title && c.summary == Summary(poi.short)
  {
    Card(poi.title, Summary(poi.short), poi)
  }

  /** Every record can be anchored: the dataset's z is nonzero. */
  predicate Anchorable(pois: seq<Poi>) {
    forall i :: 0 <= i < |pois| ==> pois[i].z != 0.0
  }

  /** The markers registering pois adds, in dataset order: one per record. */
  function MarkersOf(pois: seq<Poi>): (r: seq<Marker>)
    requires Anchorable(pois)
    ensures |r| == |pois|
    ensures forall i :: 0 <= i < |pois| ==> r[i].poi == pois[i] && r[i].location == Anchor(pois[i])
  {
    if pois == [] then []
    else MarkersOf(pois[..|pois| - 1]) + [MarkerFor(pois[|pois| - 1])]
  }

  /** The cards registering pois appends, in dataset order: one per record. */
  function CardsOf(pois: seq<Poi>): (r: seq<Card>)
    ensures |r| == |pois|
    ensures forall i :: 0 <= i < |pois| ==>
      r[i].poi == pois[i] && r[i].heading == pois[i].title && r[i].summary == Summary(pois[i].short)
  {
    if pois == [] then []
    else CardsOf(pois[..|pois| - 1]) + [CardFor(pois[|pois| - 1])]
  }

  /** Registering one more record adds its marker and its card at the end. */
  lemma RegistrationStep(pois: seq<Poi>, i: nat)
    requires i < |pois| && Anchorable(pois)
    ensures MarkersOf(pois[..i + 1]) == MarkersOf(pois[..i]) + [MarkerFor(pois[i])]
    ensures CardsOf(pois[..i + 1]) == CardsOf(pois[..i]) + [CardFor(pois[i])]
  {
  }

  /**
   * A marker sits at the record's anchor, not at its navigation target,
   * unless z is 1 or the record is at the origin.
   */
  lemma AnchorIsNotTarget(poi: Poi)
    requires poi.z != 0.0 && poi.z != 1.0 && (poi.x != 0.0 || poi.y != 0.0)
    ensures Anchor(poi) != Target(poi)
  {
    var a := Anchor(poi);
    if a == Target(poi) {
      assert a.x == poi.x && a.y == poi.y;
      assert a.x * poi.z == poi.x && a.y * poi.z == poi.y;
      assert poi.x * (poi.z - 1.0) == 0.0;
      assert poi.y * (poi.z - 1.0) == 0.0;
      ZeroProduct(poi.x, poi.z - 1.0);
      ZeroProduct(poi.y, poi.z - 1.0);
    }
  }

  lemma ZeroProduct(a: real, b: real)
    requires a * b == 0.0 && b != 0.0
    ensures a == 0.0
  {
  }

  /** The record {x: 100, y: 200, z: 2} is anchored at (50, 100) but navigates to (100, 200). */
  lemma AnchorExample(zoom: Option<real>, title: string, description: string, short: Option<string>)
    ensures var poi := Poi(100.0, 200.0, 2.0, zoom, title, description, short);
            Anchor(poi) == Point(50.0, 100.0) && Target(poi) == Point(100.0, 200.0)
  {
  }
}
