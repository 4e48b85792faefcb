# Deep-zoom viewer page: navigation and points of interest

This project models the page script of a single-image deep-zoom viewer (`static/js/scripts.js`) in Dafny. The script does five things over an OpenSeadragon viewer:

- **Navigation rule.** `goToCoordinates(x, y, zoomLevelOrFactor)` does nothing until the viewer's world holds an item. Otherwise it converts the pixel point to viewport coordinates, reads the zoom argument as a fraction of the maximum zoom when it is at most 1.0 and as an absolute level above 1.0, then pans and zooms to the converted point.
- **Startup view.** On `open`, the viewer goes to pixel (2000, 1500) at factor 0.5.
- **Coordinate form.** A submit parses both inputs with `parseInt`. If either is NaN it shows an alert and changes nothing. Otherwise it navigates at factor 0.5 and hides the info box.
- **POI registration.** For each point-of-interest (POI) record, in dataset order, it adds one overlay marker anchored at (x/z, y/z) and appends one menu card. Clicking either one navigates to the raw (x, y) with zoom `poi.zoom || 5` and shows the record's title and description.
- **Info box.** A visible/hidden toggle plus the last title and text shown. The close button hides it.

The files:

- `wrappers.dfy` (`Wrappers`): an Option type.
- `js_parse_int.dfy` (`JsParseInt`): the global `parseInt` of ECMA-262 with no radix. It skips leading white space, reads an optional sign, switches to base 16 after a `0x` or `0X` prefix, and reads the longest run of digits. `None` stands for NaN.
- `navigation.dfy` (`Navigation`): points, the conversion, the zoom rule and the end state of one navigation.
- `pois.dfy` (`Pois`): the POI record, its anchor, its default zoom, and the markers and cards made from a dataset.
- `viewport.dfy` (`Viewport`): the class `Viewer`, the abstract OpenSeadragon viewer. Its fields are `itemCount`, `maxZoom`, `center`, `zoom` and `overlays`, and the conversion is a constant field `toViewport`.
- `app.dfy` (`App`): `PageState` and one function per event handler that gives the state after the handler, plus lemmas about those functions. The class `Page` holds the info-box fields and the card list. Its methods run each handler step by step and are proved to end in the state its function gives.

`imageToViewportCoordinates` is the field `toViewport`, an arbitrary function fixed when the viewer is built, so nothing is assumed about its geometry. Arithmetic is on `real`.

Two details follow the code exactly:

- The POI zoom default is `poi.zoom || 5`, not a nullish default, so a zoom of 0 also becomes 5 (`Pois.ZoomOrDefault`).
- A manual submit hides the info box unconditionally, whether or not it was shown.

The invariant `App.Paired` says that overlay i on the viewer and card i in the menu are the marker and the card of the same record. The page starts paired, because its viewer has no overlays yet, and every handler keeps the pairing. On a paired page, clicking marker i and clicking card i end in the same state.

## Model

| member | source | states |
|---|---|---|
| `JsParseInt.TrimStart` | static/js/scripts.js:84-85 | parseInt drops exactly the leading run of ECMA-262 white space; what remains is a suffix that starts with a non-blank character |
| `JsParseInt.DigitValue` | static/js/scripts.js:84-85 | exactly the ASCII letters and digits have a value; 0-9 are worth 0-9, and a-z and A-Z are both worth 10-35 |
| `JsParseInt.LeadingDigits` | static/js/scripts.js:84-85 | the digits read are the longest prefix of digits in the base, and the next character is not one |
| `JsParseInt.Scan` | static/js/scripts.js:84-85 | after the leading blanks: negative exactly when the next character is `-`; base 16 exactly when a `0x` or `0X` follows the one optional sign, base 10 otherwise; the digits are the longest run of that base after the sign and the prefix |
| `JsParseInt.ParseInt` | static/js/scripts.js:84-85 | NaN exactly when no digit is read; otherwise the value of the digits read in their base, negated after a minus sign |
| `JsParseInt.ParseIntReadsDecimalPrefix` | static/js/scripts.js:84-85 | any integer written in decimal parses back to itself, whatever follows, unless the next character is a digit or, after the integer 0, an `x`/`X` (which would make `0x` a hexadecimal prefix) |
| `JsParseInt.ParseIntRoundTrip` | static/js/scripts.js:84-85 | parseInt of an integer's decimal text is that integer |
| `JsParseInt.TrimStartSkipsBlanks` | static/js/scripts.js:84-85 | trimming a run of blanks put in front of a string gives what trimming the string gives |
| `JsParseInt.ParseIntIgnoresLeadingBlanks` | static/js/scripts.js:84-85 | blanks in front of an input do not change its value, and parseInt of a string is parseInt of its trimmed form |
| `JsParseInt.TrimSigned` | static/js/scripts.js:84-85 | a sign followed by neither a blank nor another sign has nothing trimmed before it, and exactly that one sign is dropped |
| `JsParseInt.ScanSeesUnsigned` | static/js/scripts.js:84-85 | the base and the digits read depend only on what follows the blanks and the sign |
| `JsParseInt.ScanSign` | static/js/scripts.js:84-85 | a sign in front sets the negative flag exactly when it is `-`, and the base and the digits are those of the text after it |
| `JsParseInt.ParseIntPlusSign` | static/js/scripts.js:84-85 | a `+` in front of an input that does not start with a blank or a sign leaves its value unchanged, NaN included |
| `JsParseInt.EvaluateNegated` | static/js/scripts.js:84-85 | a numeral read after `-` evaluates to the negation of the same digits read unsigned, and NaN stays NaN |
| `JsParseInt.ParseIntMinusSign` | static/js/scripts.js:84-85 | a `-` in front of such an input negates its value, and NaN stays NaN |
| `JsParseInt.ValueIgnoresLeadingZeros` | static/js/scripts.js:84-85 | zeros in front of a run of digits are digits of any base and add nothing to its value |
| `JsParseInt.ScanLeadingZeros` | static/js/scripts.js:84-85 | zeros followed by a natural number's decimal digits are all read, in base 10, with no sign |
| `JsParseInt.ParseIntLeadingZeros` | static/js/scripts.js:84-85 | leading zeros are decimal, not octal: zeros followed by the decimal digits of n parse to n |
| `JsParseInt.HexDigit` | static/js/scripts.js:84-85 | the lower-case hexadecimal digit written for 0-15 is worth exactly that number |
| `JsParseInt.ValueOfHexDigits` | static/js/scripts.js:84-85 | the hexadecimal digits of a natural number are worth that number in base 16 |
| `JsParseInt.ParseIntReadsHex` | static/js/scripts.js:84-85 | `0x` followed by the hexadecimal digits of n parses to n, whatever non-hexadecimal text follows |
| `JsParseInt.NoLeadingNumberIsNaN` | static/js/scripts.js:84-87 | a string whose first non-blank character is neither a sign nor a digit is NaN, so the form rejects it |
| `JsParseInt.TextIsNaN` | static/js/scripts.js:84-87 | `"abc"` is NaN |
| `JsParseInt.BareSignIsNaN` | static/js/scripts.js:84-87 | `"-"` is NaN |
| `JsParseInt.BareHexPrefixIsNaN` | static/js/scripts.js:84-87 | `"0x"` is NaN while `"0"` is 0 |
| `JsParseInt.TrailingTextExample` | static/js/scripts.js:84-85 | `"150px"` parses to 150: trailing text is ignored |
| `JsParseInt.HexPrefixExample` | static/js/scripts.js:84-85 | `"0x1A"` parses to 26: with no radix, the prefix selects base 16 |
| `JsParseInt.FortyTwo` | static/js/scripts.js:84-85 | `"42"` parses to 42 |
| `JsParseInt.LeadingBlankExample` | static/js/scripts.js:84-85 | `" 42"` parses to 42: the leading blank is skipped |
| `JsParseInt.PlusSignExample` | static/js/scripts.js:84-85 | `"+42"` parses to 42: a plus sign is accepted |
| `JsParseInt.LeadingZerosExample` | static/js/scripts.js:84-85 | `"007"` parses to 7 |
| `JsParseInt.NegativeHexExample` | static/js/scripts.js:84-85 | `"-0x1A"` parses to -26: the sign comes before the hexadecimal prefix |
| `Navigation.Classify` | static/js/scripts.js:41-47 | the argument is a factor exactly when it is at most 1.0, and otherwise a level, carrying the same number |
| `Navigation.TargetZoom` | static/js/scripts.js:41-47 | at most 1.0 the target zoom is maxZoom times the argument; above 1.0 it is the argument |
| `Navigation.GoTo` | static/js/scripts.js:33-54 | with no item loaded the view is unchanged; otherwise the centre is the converted (x, y) and the zoom is the target zoom |
| `Navigation.FactorBoundary` | static/js/scripts.js:44-47 | exactly 1.0 is read as a factor and gives maxZoom |
| `Navigation.LevelOneIsReadAsFactor` | static/js/scripts.js:44-47 | an absolute level of 1 cannot be requested as 1 unless maxZoom is 1 (the boundary ambiguity) |
| `Navigation.LevelIgnoresMaxZoom` | static/js/scripts.js:41-44 | above 1.0 the target zoom does not depend on maxZoom |
| `Navigation.FactorWithinMaxZoom` | static/js/scripts.js:44-46 | a factor in [0, 1] gives a level in [0, maxZoom] that grows with the factor |
| `Navigation.GoToBeforeLoadIsNoOp` | static/js/scripts.js:34 | before an item is loaded, navigation changes neither centre nor zoom |
| `Navigation.GoToConverges` | static/js/scripts.js:37-53 | once an item is loaded, the end state is the same from any starting view |
| `Navigation.GoToIdempotent` | static/js/scripts.js:33-54 | navigating twice with the same arguments ends where navigating once does |
| `Pois.ZoomOrDefault` | static/js/scripts.js:119 | a missing or zero zoom becomes 5; any other zoom is kept; the result is never 0 |
| `Pois.Summary` | static/js/scripts.js:125 | a card's summary is the record's `short`, or empty when it has none |
| `Pois.Anchor` | static/js/scripts.js:109 | the anchor scaled back by z is the record's (x, y), that is (x/z, y/z) |
| `Pois.MarkerFor` | static/js/scripts.js:104-111 | a marker sits at the record's anchor and its handler closes over that record |
| `Pois.CardFor` | static/js/scripts.js:123-125 | a card shows the record's title and summary and its handler closes over that record |
| `Pois.MarkersOf` | static/js/scripts.js:103-111 | one marker per record, in dataset order, marker i at record i's anchor and bound to record i |
| `Pois.CardsOf` | static/js/scripts.js:123-134 | one card per record, in dataset order, card i bound to record i with its title and summary |
| `Pois.RegistrationStep` | static/js/scripts.js:103-134 | each forEach iteration appends exactly record i's marker and card after those of the records before it |
| `Pois.AnchorIsNotTarget` | static/js/scripts.js:109-119 | the overlay anchor differs from the navigation target unless z is 1 or the record is at the origin |
| `Pois.AnchorExample` | static/js/scripts.js:109-119 | the record {x: 100, y: 200, z: 2} is anchored at (50, 100) and navigates to (100, 200) |
| `Viewport.Viewer.constructor` | static/js/scripts.js:11-22 | a new viewer has the given conversion, item count, maximum zoom and view, and no overlays |
| `Viewport.Viewer.PanTo` | static/js/scripts.js:50 | panTo centres the view on the point and changes nothing else |
| `Viewport.Viewer.ZoomTo` | static/js/scripts.js:53 | zoomTo about the current centre sets the zoom and changes nothing else |
| `Viewport.Viewer.AddOverlay` | static/js/scripts.js:106-111 | addOverlay appends exactly the new marker |
| `App.SubmitOutcomeOf` | static/js/scripts.js:84-94 | the submit alerts exactly when either input is NaN; otherwise it navigates to the two parsed integers |
| `App.StartupView` | static/js/scripts.js:59-61 | on open, a loaded viewer goes to the converted (2000, 1500) at half its maximum zoom; info box, cards and overlays are unchanged |
| `App.RejectedSubmitChangesNothing` | static/js/scripts.js:84-94 | if either input is NaN the alert is raised and viewport, info box and cards are unchanged |
| `App.AcceptedSubmit` | static/js/scripts.js:84-91 | two decimal integers navigate to exactly those pixels at factor 0.5 (half the maximum zoom), and hide the info box without clearing it |
| `App.RejectedSubmitExample` | static/js/scripts.js:84-94 | inputs "abc" and "10" raise the alert |
| `App.AcceptedSubmitExample` | static/js/scripts.js:84-91 | inputs "150" and "300" navigate to (150, 300) |
| `App.SubmitTwiceIsSubmitOnce` | static/js/scripts.js:81-95 | resubmitting the same inputs navigates again and ends in the same state |
| `App.CloseHides` | static/js/scripts.js:78 | the close button hides the info box, keeps its title and text, and touches nothing else |
| `App.MarkerAndCardClickAgree` | static/js/scripts.js:114-132 | the marker handler (info first) and the card handler (navigation first) end in the same state |
| `App.ClickEndState` | static/js/scripts.js:126-132 | a POI click shows its title and description and, once loaded, goes to its converted raw (x, y) at the target zoom of its zoom, or 5 when it has none |
| `App.ClickWithoutZoomGoesToLevelFive` | static/js/scripts.js:119 | a POI with no zoom, or zoom 0, ends at absolute level 5 |
| `App.RegistrationCorrespondence` | static/js/scripts.js:103-134 | registering n records adds n markers and n cards after the existing ones; marker i and card i come from record i, marker i at its anchor |
| `App.RegisteredMarkerAndCardAgree` | static/js/scripts.js:103-134 | after registration, clicking record i's marker and clicking its card end in the same state |
| `App.FailedLoadRegistersNothing` | static/js/scripts.js:100-137 | a failed fetch adds no marker and no card and changes nothing |
| `App.RegisterOneMore` | static/js/scripts.js:103-135 | registering records 0..i-1 and then record i is registering records 0..i |
| `App.EmptyIsPaired` | static/js/scripts.js:66-70 | a page with no markers and no cards satisfies the pairing invariant |
| `App.RegisterKeepsPairing` | static/js/scripts.js:103-134 | registering records keeps overlay i and card i the marker and the card of one record |
| `App.LoadPoisKeepsPairing` | static/js/scripts.js:100-137 | loading the dataset keeps the pairing, on success and on failure |
| `App.HandlersKeepPairing` | static/js/scripts.js:33-95 | navigating, the open handler, the submit, the close button and both click handlers keep the pairing |
| `App.PairedClicksAgree` | static/js/scripts.js:114-132 | on a paired page, clicking marker i and clicking card i end in the same state |
| `App.Page.constructor` | static/js/scripts.js:66-70 | over a viewer with no overlays, the page starts with no cards and an info box of the given visibility, title and text, and is paired |
| `App.Page.GoToCoordinates` | static/js/scripts.js:33-54 | the guard, conversion, zoom rule, panTo and zoomTo end in the state `Navigation.GoTo` gives; the page's own fields are untouched; the pairing of markers and cards is kept |
| `App.Page.OnOpen` | static/js/scripts.js:59-61 | the open handler ends in the startup view; the pairing of markers and cards is kept |
| `App.Page.OnCloseClick` | static/js/scripts.js:78 | the close handler hides the info box; the pairing of markers and cards is kept |
| `App.Page.OnSubmit` | static/js/scripts.js:81-95 | the submit handler returns the alert or navigation decision and ends in the state that decision gives; the pairing of markers and cards is kept |
| `App.Page.OnMarkerClick` | static/js/scripts.js:114-120 | the i-th marker's handler ends in the click state for the record it closes over; on a paired page that is the state clicking card i gives; the pairing is kept |
| `App.Page.OnCardClick` | static/js/scripts.js:126-132 | the i-th card's handler ends in the click state for the record it closes over; the pairing of markers and cards is kept |
| `App.Page.RegisterPoi` | static/js/scripts.js:104-134 | one iteration adds exactly one marker and one card for the record; the pairing of markers and cards is kept |
| `App.Page.RegisterPois` | static/js/scripts.js:103-135 | the loop over the records ends in the registration of all of them, in order; the pairing of markers and cards is kept |
| `App.Page.OnPoisLoaded` | static/js/scripts.js:100-137 | the fetch continuation registers the decoded records, or changes nothing on failure; the pairing of markers and cards is kept |

## Left out

- OpenSeadragon itself is not part of this model: tiling, rendering, the navigator and the viewer options (static/js/scripts.js:11-22). The page passes `true` as the `immediately` argument of `panTo` and `zoomTo` (static/js/scripts.js:50,53), so both take effect at once without animation, which is what `Viewer.PanTo` and `Viewer.ZoomTo` model.
- The geometry of `imageToViewportCoordinates` is not modelled: it is an arbitrary function. `getMaxZoom` is a plain field, and the viewer's zoom constraints (such as `minZoomLevel: 0.5` and clamping to the maximum zoom) are not applied.
- Viewport.Viewer.ZoomTo: requires the reference point to be the current centre, because zooming about any other point would move the centre by OpenSeadragon geometry that is not modelled. The page's only call passes the point it has just panned to.
- `fetch`, `res.json()` and the promise chain (static/js/scripts.js:100-102, 137) are not modelled. `App.Page.OnPoisLoaded` receives the decoded records, or None when the fetch or decoding failed. The `.catch` only logs, so the None case changes nothing.
- Records with missing or non-numeric coordinates are not modelled. Records are typed, and the forEach cannot throw partway through a dataset.
- A record with z = 0 is excluded by `Pois.Anchorable`. The script would place that marker at an infinite or NaN location.
- DOM details are not modelled: `createElement`, the `innerHTML` template of cards and its HTML-injection concern, `classList`, `preventDefault`, and how the alert is displayed. What is kept is the info box's visibility, title and text, the card list, the overlay list, and the alert's text as `App.SubmitOutcome.Rejected`.
- The markup's initial info-box visibility, title and text come from the HTML template, which is not part of this model. They are parameters of `App.Page.constructor`.
- JsParseInt.ParseInt: results are unbounded integers. The model does not round to a double, does not give Infinity for very long digit strings, and does not keep the sign of `-0`. The white-space set is ECMA-262's list of white space and line terminators.
- IEEE floating-point rounding is not modelled: arithmetic is on `real`.
- app.py is not part of this model. It is Flask route wiring that renders templates, with no logic of its own.
- The `DOMContentLoaded` wrapper and the `imageName` global set by the template are not modelled. The wrapper is the construction of a `Page` over a `Viewer`.
