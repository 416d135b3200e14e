# Earthquake map styling, modelled in Dafny

The leaflet_challenge web map shows a week of USGS earthquakes as circle
markers over tectonic plate boundaries. Each marker is styled by two small
rules. Its fill colour comes from the event's depth: six bands, cut at 10, 30,
50, 70 and 90 km. Its radius comes from the magnitude. A popup states the
magnitude, depth and place. A legend panel lists the six depth bands and
their colours. The legend keeps its own copy of the band table, apart from
the colour rule.

This project models those rules and proves their properties:

- `Classify` (classify.dfy) models the depth-to-colour step function
  `dataColor` and the magnitude-to-radius rule `radiusSize`. Depth and
  magnitude are mathematical reals. The model proves that the colour bands
  are exhaustive and non-overlapping, and that the colour's band equals an
  independent reference: the number of thresholds the depth strictly exceeds.
  Monotonicity and strictness at each threshold follow from that count.
- `Style` (style.dfy) models the per-feature style record `dataStyle` and the
  popup text. A feature is reduced to the fields these read: the
  `[lon, lat, depth]` coordinates and the `mag` and `place` properties.
- `Legend` (legend.dfy) models `legend.onAdd`. Its `intervals` and `colors`
  tables are constants. The legend element is a class whose `innerHTML` the
  loop extends one row at a time. Lemmas say where each row stands in the
  markup and what its label reads. Other lemmas prove that the legend's
  tables agree with the classifier.
- `JsText` (js_text.dfy) models the JavaScript semantics the legend relies
  on. An array read past the end gives `undefined`. `undefined` and `0` are
  falsy. An integer prints as decimal digits inside a template literal.

## Model

| member | source | states |
|---|---|---|
| Classify.CssRoundTrip | leaflet_challenge/static/js/logic.js:47-60 | the six colour strings the classifier returns are pairwise distinct, so each string identifies its band |
| Classify.DataColor | leaflet_challenge/static/js/logic.js:47-60 | the colour `dataColor` returns names a band that contains the depth: above the band's lower threshold (if any) and at or below its upper one (if any) |
| Classify.DataColorRank | leaflet_challenge/static/js/logic.js:47-60 | the band `dataColor` picks, counted from the shallowest, equals the number of thresholds 10, 30, 50, 70, 90 that the depth strictly exceeds |
| Classify.ExceededAscending | leaflet_challenge/static/js/logic.js:48-57 | over an ascending threshold table, that count n places the depth above threshold n-1 and at or below threshold n |
| Classify.ExceededMonotone | leaflet_challenge/static/js/logic.js:48-57 | the number of thresholds exceeded never falls as the depth grows |
| Classify.DataColorMonotone | leaflet_challenge/static/js/logic.js:47-60 | if d1 <= d2, then the band of `dataColor(d1)` is no deeper than the band of `dataColor(d2)` |
| Classify.DataColorIsBand | leaflet_challenge/static/js/logic.js:47-60 | `dataColor(d)` is colour c if and only if d lies in c's band. Bands are above the previous threshold and at or below the next, so they are exhaustive and disjoint. Every depth <= 10, negative depths included, is green |
| Classify.ThresholdIsStrict | leaflet_challenge/static/js/logic.js:48-57 | each threshold falls in the band below it (depth 90 gives "#fc4903", not red), and every depth strictly above a threshold falls in a higher band |
| Classify.RadiusSize | leaflet_challenge/static/js/logic.js:63-68 | magnitude 0 gives radius 1; the radius is never 0; it is positive exactly when the magnitude is non-negative; for every non-zero magnitude, radius / 5 recovers the magnitude |
| Classify.RadiusDipsNearZero | leaflet_challenge/static/js/logic.js:64-67 | every magnitude strictly between 0 and 0.2 draws a smaller circle than magnitude 0 |
| Classify.RadiusInjective | leaflet_challenge/static/js/logic.js:63-68 | two non-zero magnitudes with the same radius are equal |
| Classify.RadiusNotMonotoneNearZero | leaflet_challenge/static/js/logic.js:64-67 | the zero special case makes magnitude 0.1 draw a smaller circle than magnitude 0, and magnitude 0.2 the same circle |
| Style.DataStyle | leaflet_challenge/static/js/logic.js:71-82 | the fill colour is `dataColor` of `coordinates[2]`; the radius is `radiusSize` of `properties.mag`; opacity, fillOpacity and weight are 0.5; the outline is "#000000"; stroke is on |
| Style.DataStyleDependsOnDepthAndMag | leaflet_challenge/static/js/logic.js:71-82 | two features with the same depth and magnitude get the same style, whatever their position or place |
| Style.DataStyleFillBand | leaflet_challenge/static/js/logic.js:76 | the fill colour always names a band, the depth lies in that band, and a deeper feature never gets a shallower fill |
| Style.Popup | leaflet_challenge/static/js/logic.js:93-96 | the popup text contains "Magnitude: <b>" with the magnitude's text, "Depth: <b>" with the depth's text, and "Location: <b>" with the place name |
| Style.PopupLayout | leaflet_challenge/static/js/logic.js:94-96 | the magnitude, depth and location parts sit at fixed offsets, separated by a break tag with the template's line break and indentation, and the text ends with `<b/>` as written |
| Style.PopupDistinguishesPlaces | leaflet_challenge/static/js/logic.js:94-96 | two events whose magnitude and depth texts agree have the same popup only if their place names agree |
| Style.ModerateShallowEvent | leaflet_challenge/static/js/logic.js:71-96 | a magnitude 5.2 event at 45 km gets fill "#fcad03" and radius 26, and its popup contains "Magnitude: <b>5.2</b>", "Depth: <b>45</b>" and its place |
| Style.ZeroMagnitudeDeepEvent | leaflet_challenge/static/js/logic.js:71-82 | a magnitude 0 event at 95 km gets fill "red" and radius 1 |
| Legend.Div.constructor | leaflet_challenge/static/js/logic.js:127 | the legend element starts with the given class name and empty markup |
| Legend.OnAdd | leaflet_challenge/static/js/logic.js:125-151 | returns a fresh element of class "info legend". Its markup is the six rows, in table order, appended one per loop turn |
| Legend.LegendRowAt | leaflet_challenge/static/js/logic.js:142-148 | row i appears whole in the legend markup, directly after rows 0 to i-1 |
| Legend.Label | leaflet_challenge/static/js/logic.js:146 | a row's text starts with its interval start. When the next entry is truthy, "km &ndash; " follows, then the next start, then "km", and nothing else. When it is falsy, the text is the start followed by "km+" and nothing else. The text ends in "km+" exactly when the next entry is falsy |
| Legend.RowMarkup | leaflet_challenge/static/js/logic.js:143-147 | in the row template, the swatch colour stands at offset \|RowOpen\| and the label at offset \|RowOpen\| + \|colour\| + \|RowSwatchClose\|; the row is exactly as long as its pieces |
| Legend.RowHtml | leaflet_challenge/static/js/logic.js:143-147 | row i's swatch colour is `colors[i]`, and its text is the label of `intervals[i]` and `intervals[i + 1]` |
| Legend.LegendHtml | leaflet_challenge/static/js/logic.js:142-148 | the markup is empty exactly when no row has been appended |
| Legend.LegendGrows | leaflet_challenge/static/js/logic.js:142-148 | each loop turn appends row i after the rows before it, and changes nothing else in the markup |
| Legend.NextEntryTruthy | leaflet_challenge/static/js/logic.js:146 | the truthiness test on `intervals[i + 1]` holds exactly when i + 1 < 6, since none of 10, 30, 50, 70, 90 is zero |
| Legend.LabelTexts | leaflet_challenge/static/js/logic.js:146 | rows 0 to 4 read "intervals[i]km &ndash; intervals[i+1]km"; the last row reads "90km+" |
| Legend.TablesMatchClassifier | leaflet_challenge/static/js/logic.js:130-139 | both tables have 6 entries, one more than the classifier's thresholds; `intervals[1..5]` are the classifier's thresholds; `colors[i]` is the colour of band i |
| Legend.ClassifierUsesLegendColors | leaflet_challenge/static/js/logic.js:132-139 | every depth's colour is one of the six legend colours, namely the one at the depth's band index |
| Legend.LegendAgreesWithClassifier | leaflet_challenge/static/js/logic.js:130-139 | a depth in (intervals[i], intervals[i+1]] for i in 1..4, any depth above 90, or any depth <= 10 (row 0) gets `colors[i]` from `dataColor` |
| JsText.At | leaflet_challenge/static/js/logic.js:146 | a read `a[j]` yields an element of `a`, and `undefined` when j is past the end |
| JsText.TruthyLookup | leaflet_challenge/static/js/logic.js:146 | a read `a[j]` is truthy exactly when j is in range and the element is not 0 |
| JsText.NatToString | leaflet_challenge/static/js/logic.js:146 | a natural number prints as a non-empty string of digits with no leading zero |
| JsText.IntToString | leaflet_challenge/static/js/logic.js:146 | an integer prints as non-empty text that starts with '-' exactly when the integer is negative |
| JsText.IntToStringRoundTrip | leaflet_challenge/static/js/logic.js:146 | reading an integer's printed text back gives the same integer, so distinct interval starts print differently |

## Left out

- Map construction, the tile layer, layer groups, the overlay control and every `addTo` call. These are calls into the Leaflet library, which is not part of this model.
- The two `d3.json` fetches and their continuations. These are network I/O with asynchronous callbacks, and a failed fetch is silently ignored. The model starts from an already parsed feature.
- `L.geoJSON`, `L.circleMarker`, `bindPopup` and `L.DomUtil.create` are library calls. The model keeps only the values handed to them: the style record, the popup string and the legend element's class name and markup.
- The plate-boundary line style (yellow, weight 1) is a constant with no logic.
- Style.Popup: the text of a real-valued Number is the JavaScript runtime's. It is a parameter `show`, so the popup is stated only in terms of what `show` returns.
- Malformed feeds are not modelled. That covers a missing third coordinate, a missing `mag` or `place`, `null`, `undefined` and NaN, and JavaScript's loose `==` beyond numeric equality. A feature always carries a `[lon, lat, depth]` triple, a real magnitude and a place string.
- Floating point is not modelled: depth and magnitude are exact reals, so `mag * 5` is exact.
- JsText.IntToString: it covers only the integer Numbers of the legend table, not JavaScript's general number-to-string conversion (exponents, fractions).
- Legend.OnAdd: `div.innerHTML` is modelled as the markup text the loop hands to the HTML parser, and `LegendHtml(6)` is that text. In a browser, each `innerHTML +=` first reads back the re-serialised DOM, so the getter returns a normalised form after the loop (for example, `&ndash;` reads back as "–"). That re-serialisation, and the DOM the markup becomes, are not modelled.

Notes on the source, not defects in the model:
- The legend's first row reads "-10km &ndash; 10km", but the classifier makes every depth <= 10 green, including depths below -10 (see `Legend.LegendAgreesWithClassifier`, row 0).
- The popup closes the location with `<b/>` rather than `</b>`. The model keeps the text exactly as written.
- Magnitudes strictly between 0 and 0.2 draw smaller circles than magnitude 0 (`Classify.RadiusDipsNearZero`; `Classify.RadiusNotMonotoneNearZero` gives 0.1 and 0.2 as examples).
- The radius of a negative magnitude is negative, and it is passed through as the source does.
