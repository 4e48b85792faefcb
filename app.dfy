/**
 * The page script: the startup view, the coordinate form, the info box and
 * the registration of POIs, over one viewer. PageState and the functions
 * on it say what each event handler does. The class Page runs the handlers
 * step by step, and each method is proved to end in the state its
 * function gives.
 */
module App {
  import opened Wrappers
  import opened JsParseInt
  import opened Navigation
  import opened Pois
  import opened Viewport

  /** X_PIXEL_INICIAL, Y_PIXEL_INICIAL and ZOOM_FACTOR_INICIAL (50% of the maximum zoom). */
  const InitialX: real := 2000.0
  const InitialY: real := 1500.0
  const InitialZoomFactor: real := 0.5

  /** The text of the alert shown for coordinates that are not numbers. */
  const AlertMessage: string := "Por favor, introduce coordenadas num\U{e9}ricas v\U{e1}lidas."

  /** The info box: whether it is shown (no "hidden" class), with its title and text. */
  datatype InfoBox = InfoBox(visible: bool, title: string, text: string)

  /** Everything the page's handlers read or change. */
  datatype PageState = PageState(viewer: ViewerState, info: InfoBox, cards: seq<Card>)

  /** What a submit of the coordinate form does: one navigation, or an alert. */
  datatype SubmitOutcome = Navigated(x: int, y: int) | Rejected(message: string)

  /** goToCoordinates(x, y, zoomLevelOrFactor) on the page's viewer. */
  function Navigate(s: PageState, toViewport: Conversion, x: real, y: real, zoomLevelOrFactor: real): PageState {
    var v := s.viewer;
    s.(viewer := v.(camera := GoTo(v.itemCount, v.maxZoom, toViewport, v.camera, x, y, zoomLevelOrFactor)))
  }

  /** Fill in the info box and remove its "hidden" class. */
  function Show(s: PageState, title: string, text: string): PageState {
    s.(info := InfoBox(true, title, text))
  }

  /** Add the "hidden" class; the title and text stay as they were. */
  function Hide(s: PageState): PageState {
    s.(info := s.info.(visible := false))
  }

  /** The viewer's 'open' handler. */
  function Open(s: PageState, toViewport: Conversion): PageState {
    Navigate(s, toViewport, InitialX, InitialY, InitialZoomFactor)
  }

  /** The decision the submit handler takes on the two inputs, parsed with parseInt. */
  function SubmitOutcomeOf(inputX: string, inputY: string): (o: SubmitOutcome)
    ensures o.Rejected? <==> ParseInt(inputX).None? || ParseInt(inputY).None?
    ensures o.Rejected? ==> o.message == AlertMessage
    ensures o.Navigated? ==> ParseInt(inputX) == Some(o.x) && ParseInt(inputY) == Some(o.y)
  {
    var x := ParseInt(inputX);
    var y := ParseInt(inputY);
    if x.Some? && y.Some? then Navigated(x.value, y.value) else Rejected(AlertMessage)
  }

  /** The page after the submit handler took decision o. */
  function AfterSubmit(s: PageState, toViewport: Conversion, o: SubmitOutcome): PageState {
    match o
    case Navigated(x, y) => Hide(Navigate(s, toViewport, x as real, y as real, InitialZoomFactor))
    case Rejected(_) => s
  }

  /** A marker's click handler: fill in and show the info box, then navigate. */
  function MarkerClick(s: PageState, toViewport: Conversion, poi: Poi): PageState {
    Navigate(Show(s, poi.title, poi.description), toViewport, poi.x, poi.y, ZoomOrDefault(poi.zoom))
  }

  /** A card's click handler: navigate, then fill in and show the info box. */
  function CardClick(s: PageState, toViewport: Conversion, poi: Poi): PageState {
    Show(Navigate(s, toViewport, poi.x, poi.y, ZoomOrDefault(poi.zoom)), poi.title, poi.description)
  }

  /** The page after the forEach over pois: their markers and cards appended in dataset order. */
  function Register(s: PageState, pois: seq<Poi>): PageState
    requires Anchorable(pois)
  {
    s.(viewer := s.viewer.(overlays := s.viewer.overlays + MarkersOf(pois)), cards := s.cards + CardsOf(pois))
  }

  /** The end of the fetch chain: the decoded records, or None when the fetch or the decoding failed (the catch only logs). */
  function LoadPois(s: PageState, response: Option<seq<Poi>>): PageState
    requires response.Some? ==> Anchorable(response.value)
  {
    if response.Some? then Register(s, response.value) else s
  }

  /** On 'open' the viewer goes to pixel (2000, 1500) at half its maximum zoom, once an item is loaded. */
  lemma StartupView(s: PageState, toViewport: Conversion)
    ensures var r := Open(s, toViewport);
            && r.info == s.info && r.cards == s.cards
            && r.viewer == s.viewer.(camera := r.viewer.camera)
            && (s.viewer.itemCount == 0 ==> r == s)
            && (s.viewer.itemCount > 0 ==>
                  r.viewer.camera == Camera(toViewport(2000.0, 1500.0), s.viewer.maxZoom * 0.5))
  {
  }

  /** Coordinates that are not numbers raise the alert and leave the viewport and the info box as they were. */
  lemma RejectedSubmitChangesNothing(s: PageState, toViewport: Conversion, inputX: string, inputY: string)
    requires ParseInt(inputX).None? || ParseInt(inputY).None?
    ensures SubmitOutcomeOf(inputX, inputY) == Rejected(AlertMessage)
    ensures AfterSubmit(s, toViewport, SubmitOutcomeOf(inputX, inputY)) == s
  {
  }

  /**
   * Two integers typed in decimal navigate once, to exactly those pixels at
   * half the maximum zoom, and hide the info box without clearing it.
   */
  lemma AcceptedSubmit(s: PageState, toViewport: Conversion, x: int, y: int)
    ensures SubmitOutcomeOf(DecimalString(x), DecimalString(y)) == Navigated(x, y)
    ensures var r := AfterSubmit(s, toViewport, Navigated(x, y));
            && r.info == s.info.(visible := false) && r.cards == s.cards
            && r.viewer == s.viewer.(camera := r.viewer.camera)
            && r.viewer.camera == GoTo(s.viewer.itemCount, s.viewer.maxZoom, toViewport, s.viewer.camera,
                                       x as real, y as real, InitialZoomFactor)
            && (s.viewer.itemCount > 0 ==>
                  r.viewer.camera == Camera(toViewport(x as real, y as real), s.viewer.maxZoom * 0.5))
  {
    ParseIntRoundTrip(x);
    ParseIntRoundTrip(y);
  }

  /** The inputs "abc" and "10" raise the alert. */
  lemma RejectedSubmitExample()
    ensures SubmitOutcomeOf("abc", "10") == Rejected(AlertMessage)
  {
    TextIsNaN();
  }

  /** The inputs "150" and "300" navigate to pixel (150, 300). */
  lemma AcceptedSubmitExample()
    ensures SubmitOutcomeOf("150", "300") == Navigated(150, 300)
  {
    assert DecimalString(150) == "150";
    assert DecimalString(300) == "300";
    ParseIntRoundTrip(150);
    ParseIntRoundTrip(300);
  }

  /** Submitting the same coordinates again navigates again and lands in the same state. */
  lemma SubmitTwiceIsSubmitOnce(s: PageState, toViewport: Conversion, inputX: string, inputY: string)
    ensures var o := SubmitOutcomeOf(inputX, inputY);
            AfterSubmit(AfterSubmit(s, toViewport, o), toViewport, o) == AfterSubmit(s, toViewport, o)
  {
  }

  /** The close button hides the info box and keeps its title and text. */
  lemma CloseHides(s: PageState)
    ensures Hide(s).info == InfoBox(false, s.info.title, s.info.text)
    ensures Hide(s).viewer == s.viewer && Hide(s).cards == s.cards
  {
  }

  /** The two handlers do the same two things in opposite orders, and end in the same state. */
  lemma MarkerAndCardClickAgree(s: PageState, toViewport: Conversion, poi: Poi)
    ensures MarkerClick(s, toViewport, poi) == CardClick(s, toViewport, poi)
  {
  }

  /**
   * A click on a POI shows its title and description and navigates to its
   * raw (x, y) with its zoom, or level 5 when it has none.
   */
  lemma ClickEndState(s: PageState, toViewport: Conversion, poi: Poi)
    ensures var r := CardClick(s, toViewport, poi);
            && r.info == InfoBox(true, poi.title, poi.description)
            && r.cards == s.cards && r.viewer.overlays == s.viewer.overlays
            && (s.viewer.itemCount == 0 ==> r.viewer.camera == s.viewer.camera)
            && (s.viewer.itemCount > 0 ==>
                  r.viewer.camera == Camera(toViewport(poi.x, poi.y), TargetZoom(ZoomOrDefault(poi.zoom), s.viewer.maxZoom)))
  {
  }

  /** A POI with no zoom, or zoom 0, is shown at absolute level 5 whatever the maximum zoom. */
  lemma ClickWithoutZoomGoesToLevelFive(s: PageState, toViewport: Conversion, poi: Poi)
    requires s.viewer.itemCount > 0
    requires poi.zoom.None? || poi.zoom == Some(0.0)
    ensures MarkerClick(s, toViewport, poi).viewer.camera.zoom == 5.0
  {
  }

  /**
   * Registering n records adds n markers and n cards after the existing ones.
   * Marker i and card i both come from record i, and marker i is at its anchor.
   */
  lemma RegistrationCorrespondence(s: PageState, pois: seq<Poi>)
    requires Anchorable(pois)
    ensures var r := Register(s, pois);
            && |r.viewer.overlays| == |s.viewer.overlays| + |pois|
            && |r.cards| == |s.cards| + |pois|
            && r.viewer.overlays[..|s.viewer.overlays|] == s.viewer.overlays
            && r.cards[..|s.cards|] == s.cards
            && r.info == s.info && r.viewer.camera == s.viewer.camera
            && (forall i :: 0 <= i < |pois| ==>
                  && r.viewer.overlays[|s.viewer.overlays| + i].poi == pois[i]
                  && r.viewer.overlays[|s.viewer.overlays| + i].location == Anchor(pois[i])
                  && r.cards[|s.cards| + i].poi == pois[i])
  {
  }

  /** Clicking a registered POI's marker or its card ends in the same state. */
  lemma RegisteredMarkerAndCardAgree(s: PageState, toViewport: Conversion, pois: seq<Poi>, i: nat)
    requires Anchorable(pois) && i < |pois|
    ensures var r := Register(s, pois);
            MarkerClick(r, toViewport, r.viewer.overlays[|s.viewer.overlays| + i].poi)
            == CardClick(r, toViewport, r.cards[|s.cards| + i].poi)
            == CardClick(r, toViewport, pois[i])
  {
  }

  /** A failed fetch registers nothing; the viewer and the form work as before. */
  lemma FailedLoadRegistersNothing(s: PageState)
    ensures LoadPois(s, None) == s
  {
  }

  /** Registering a batch and then one more record is registering the longer batch. */
  lemma RegisterOneMore(s: PageState, pois: seq<Poi>, i: nat)
    requires Anchorable(pois) && i < |pois|
    ensures Register(Register(s, pois[..i]), [pois[i]]) == Register(s, pois[..i + 1])
  {
  }

  /**
   * The pairing the forEach sets up: overlay i on the viewer and card i in
   * the menu are the marker and the card of one and the same record.
   */
  ghost predicate Paired(s: PageState) {
    && |s.viewer.overlays| == |s.cards|
    && forall i :: 0 <= i < |s.cards| ==>
         && s.cards[i].poi.z != 0.0
         && s.viewer.overlays[i] == MarkerFor(s.cards[i].poi)
         && s.cards[i] == CardFor(s.cards[i].poi)
  }

  /** A page with no markers and no cards is paired. */
  lemma EmptyIsPaired(s: PageState)
    requires s.viewer.overlays == [] && s.cards == []
    ensures Paired(s)
  {
  }

  /** Registering a batch keeps the pairing: it adds the marker and the card of each record at the same position. */
  lemma RegisterKeepsPairing(s: PageState, pois: seq<Poi>)
    requires Paired(s) && Anchorable(pois)
    ensures Paired(Register(s, pois))
  {
    var r := Register(s, pois);
    var n := |s.cards|;
    forall i | 0 <= i < |r.cards|
      ensures && r.cards[i].poi.z != 0.0
              && r.viewer.overlays[i] == MarkerFor(r.cards[i].poi)
              && r.cards[i] == CardFor(r.cards[i].poi)
    {
      if i < n {
        assert r.cards[i] == s.cards[i] && r.viewer.overlays[i] == s.viewer.overlays[i];
      } else {
        var poi := pois[i - n];
        assert r.cards[i] == CardsOf(pois)[i - n];
        assert r.viewer.overlays[i] == MarkersOf(pois)[i - n];
        assert r.cards[i].poi == poi;
      }
    }
  }

  /** Loading the dataset keeps the pairing, whether the fetch succeeds or not. */
  lemma LoadPoisKeepsPairing(s: PageState, response: Option<seq<Poi>>)
    requires Paired(s) && (response.Some? ==> Anchorable(response.value))
    ensures Paired(LoadPois(s, response))
  {
    if response.Some? {
      RegisterKeepsPairing(s, response.value);
    }
  }

  /** Navigating, showing and hiding the info box, and so every other handler, leave markers and cards alone. */
  lemma HandlersKeepPairing(s: PageState, toViewport: Conversion, poi: Poi, o: SubmitOutcome, x: real, y: real, z: real)
    requires Paired(s)
    ensures Paired(Navigate(s, toViewport, x, y, z))
    ensures Paired(Open(s, toViewport))
    ensures Paired(AfterSubmit(s, toViewport, o))
    ensures Paired(Hide(s))
    ensures Paired(MarkerClick(s, toViewport, poi))
    ensures Paired(CardClick(s, toViewport, poi))
  {
  }

  /** On a paired page, clicking marker i and clicking card i end in the same state. */
  lemma PairedClicksAgree(s: PageState, toViewport: Conversion, i: nat)
    requires Paired(s) && i < |s.cards|
    ensures MarkerClick(s, toViewport, s.viewer.overlays[i].poi) == CardClick(s, toViewport, s.cards[i].poi)
  {
    assert s.viewer.overlays[i].poi == s.cards[i].poi;
  }

  /** The page script's state, around one viewer. */
  class Page {
    const viewer: Viewer
    var infoVisible: bool
    var infoTitle: string
    var infoText: string
    /** The children of the menu-cards container. */
    var cards: seq<Card>

    /** The page as loaded: no markers or cards yet, and an info box whose visibility, title and text the markup decides. */
    constructor (viewer: Viewer, infoVisible: bool, infoTitle: string, infoText: string)
      requires viewer.overlays == []
      ensures this.viewer == viewer
      ensures State() == PageState(viewer.State(), InfoBox(infoVisible, infoTitle, infoText), [])
      ensures Paired(State())
    {
      this.viewer := viewer;
      this.infoVisible := infoVisible;
      this.infoTitle := infoTitle;
      this.infoText := infoText;
      this.cards := [];
      new;
      EmptyIsPaired(State());
    }

    function State(): PageState
      reads this, viewer
    {
      PageState(viewer.State(), InfoBox(infoVisible, infoTitle, infoText), cards)
    }

    method GoToCoordinates(x: real, y: real, zoomLevelOrFactor: real)
      modifies viewer
      ensures State() == Navigate(old(State()), viewer.toViewport, x, y, zoomLevelOrFactor)
      ensures Paired(old(State())) ==> Paired(State())
    {
      if viewer.GetItemCount() == 0 {
        return;
      }
      var viewportPoint := viewer.ImageToViewportCoordinates(x, y);
      var targetZoom := zoomLevelOrFactor;
      if targetZoom <= 1.0 {
        var maxZoom := viewer.GetMaxZoom();
        targetZoom := maxZoom * zoomLevelOrFactor;
      }
      viewer.PanTo(viewportPoint);
      viewer.ZoomTo(targetZoom, viewportPoint);
    }

    /** The viewer's 'open' handler. */
    method OnOpen()
      modifies viewer
      ensures State() == Open(old(State()), viewer.toViewport)
      ensures Paired(old(State())) ==> Paired(State())
    {
      GoToCoordinates(InitialX, InitialY, InitialZoomFactor);
    }

    /** The close button's click handler. */
    method OnCloseClick()
      modifies this
      ensures State() == Hide(old(State()))
      ensures Paired(old(State())) ==> Paired(State())
    {
      infoVisible := false;
    }

    /** The coordinate form's submit handler, given the two inputs' text. */
    method OnSubmit(inputX: string, inputY: string) returns (outcome: SubmitOutcome)
      modifies this, viewer
      ensures outcome == SubmitOutcomeOf(inputX, inputY)
      ensures State() == AfterSubmit(old(State()), viewer.toViewport, outcome)
      ensures Paired(old(State())) ==> Paired(State())
    {
      var x := ParseInt(inputX);
      var y := ParseInt(inputY);
      if x.Some? && y.Some? {
        GoToCoordinates(x.value as real, y.value as real, InitialZoomFactor);
        infoVisible := false;
        outcome := Navigated(x.value, y.value);
      } else {
        outcome := Rejected(AlertMessage);
      }
    }

    /** The click handler of the i-th overlay marker. */
    method OnMarkerClick(i: nat)
      requires i < |viewer.overlays|
      modifies this, viewer
      ensures State() == MarkerClick(old(State()), viewer.toViewport, old(viewer.overlays[i].poi))
      ensures Paired(old(State())) ==> Paired(State())
      ensures Paired(old(State())) ==> State() == CardClick(old(State()), viewer.toViewport, old(cards[i].poi))
    {
      if Paired(State()) {
        PairedClicksAgree(State(), viewer.toViewport, i);
      }
      var poi := viewer.overlays[i].poi;
      infoTitle := poi.title;
      infoText := poi.description;
      infoVisible := true;
      GoToCoordinates(poi.x, poi.y, ZoomOrDefault(poi.zoom));
    }

    /** The click handler of the i-th menu card. */
    method OnCardClick(i: nat)
      requires i < |cards|
      modifies this, viewer
      ensures State() == CardClick(old(State()), viewer.toViewport, old(cards[i].poi))
      ensures Paired(old(State())) ==> Paired(State())
    {
      var poi := cards[i].poi;
      GoToCoordinates(poi.x, poi.y, ZoomOrDefault(poi.zoom));
      infoTitle := poi.title;
      infoText := poi.description;
      infoVisible := true;
    }

    /** The body of the forEach: one marker on the viewer and one card in the menu, for one record. */
    method RegisterPoi(poi: Poi)
      requires poi.z != 0.0
      modifies this, viewer
      ensures State() == Register(old(State()), [poi])
      ensures Paired(old(State())) ==> Paired(State())
    {
      ghost var before := State();
      viewer.AddOverlay(MarkerFor(poi));
      cards := cards + [CardFor(poi)];
      assert MarkersOf([poi]) == [MarkerFor(poi)] by { assert [poi][..0] == []; }
      assert CardsOf([poi]) == [CardFor(poi)] by { assert [poi][..0] == []; }
      if Paired(before) {
        RegisterKeepsPairing(before, [poi]);
      }
    }

    /** pois.forEach(...): every record registered, in dataset order. */
    method RegisterPois(pois: seq<Poi>)
      requires Anchorable(pois)
      modifies this, viewer
      ensures State() == Register(old(State()), pois)
      ensures Paired(old(State())) ==> Paired(State())
    {
      for i := 0 to |pois|
        invariant Anchorable(pois[..i])
        invariant State() == Register(old(State()), pois[..i])
      {
        RegisterOneMore(old(State()), pois, i);
        RegisterPoi(pois[i]);
      }
      assert pois[..|pois|] == pois;
      if Paired(old(State())) {
        RegisterKeepsPairing(old(State()), pois);
      }
    }

    /** The fetch chain's continuation: register the decoded records; on failure, only log. */
    method OnPoisLoaded(response: Option<seq<Poi>>)
      requires response.Some? ==> Anchorable(response.value)
      modifies this, viewer
      ensures State() == LoadPois(old(State()), response)
      ensures Paired(old(State())) ==> Paired(State())
    {
      if response.Some? {
        RegisterPois(response.value);
      }
    }
  }
}
