/** The feature renderer: the style record handed to each earthquake's circle
    marker and the text of its popup. A feature is the part of a GeoJSON
    event feature the renderer reads. */
module Style {

  import opened JsText
  import opened Classify

  /** GeoJSON point coordinates `[longitude, latitude, depth]`; `coordinates[2]`
      is `depth`. */
  datatype Coordinates = Coordinates(lon: real, lat: real, depth: real)

  datatype Geometry = Geometry(coordinates: Coordinates)

  /** The event properties the renderer reads: magnitude and place name. */
  datatype Properties = Properties(mag: real, place: string)

  datatype Feature = Feature(geometry: Geometry, properties: Properties)

  /** The path options of a circle marker. */
  datatype PathStyle = PathStyle(
    opacity: real,
    fillOpacity: real,
    fillColor: string,
    color: string,
    radius: real,
    weight: real,
    stroke: bool)

  function Depth(f: Feature): real {
    f.geometry.coordinates.depth
  }

  function Mag(f: Feature): real {
    f.properties.mag
  }

  /** The per-feature style: fill colour from the depth band, radius from the
      magnitude, everything else fixed (half-transparent, thin black outline). */
  function DataStyle(f: Feature): (s: PathStyle)
    ensures s.fillColor == DataColor(Depth(f)).Css()
    ensures s.radius == RadiusSize(Mag(f))
    ensures s.opacity == 0.5 && s.fillOpacity == 0.5 && s.weight == 0.5
    ensures s.color == "#000000" && s.stroke
  {
    PathStyle(
      opacity := 0.5,
      fillOpacity := 0.5,
      fillColor := DataColor(f.geometry.coordinates.depth).Css(),
      color := "#000000",
      radius := RadiusSize(f.properties.mag),
      weight := 0.5,
      stroke := true)
  }

  /** The style reads nothing but depth and magnitude: position and place
      name never change it. */
  lemma DataStyleDependsOnDepthAndMag(f1: Feature, f2: Feature)
    requires Depth(f1) == Depth(f2) && Mag(f1) == Mag(f2)
    ensures DataStyle(f1) == DataStyle(f2)
  {
  }

  /** The fill colour names the band the depth lies in, and a deeper event
      never gets a shallower fill colour. */
  lemma DataStyleFillBand(f1: Feature, f2: Feature)
    ensures ColorOfCss(DataStyle(f1).fillColor).Some?
    ensures InBand(Depth(f1), ColorOfCss(DataStyle(f1).fillColor).value.Rank())
    ensures Depth(f1) <= Depth(f2) ==>
      ColorOfCss(DataStyle(f1).fillColor).value.Rank()
        <= ColorOfCss(DataStyle(f2).fillColor).value.Rank()
  {
    var c1, c2 := DataColor(Depth(f1)), DataColor(Depth(f2));
    CssRoundTrip(c1);
    CssRoundTrip(c2);
    DataColorIsBand(Depth(f1), c1);
    if Depth(f1) <= Depth(f2) {
      DataColorMonotone(Depth(f1), Depth(f2));
    }
  }

  /** What separates the popup's lines: a break tag, then the line break and
      indentation the template literal carries. */
  const PopupBreak: string := "<br>\n                          "

  /** Where each piece of `a + sep + b + sep + c + e` stands. */
  lemma LayoutPieces(a: string, sep: string, b: string, c: string, e: string)
    ensures var r := a + sep + b + sep + c + e;
      && OccursAt(r, a, 0)
      && OccursAt(r, sep, |a|)
      && OccursAt(r, b, |a| + |sep|)
      && OccursAt(r, sep, |a| + |sep| + |b|)
      && OccursAt(r, c, |a| + |sep| + |b| + |sep|)
      && OccursAt(r, e, |a| + |sep| + |b| + |sep| + |c|)
  {
    var r1 := a + sep;
    var r2 := r1 + b;
    var r3 := r2 + sep;
    var r4 := r3 + c;
    OccursInConcat(a, sep);
    OccursInConcat(r1, b);
    OccursInConcat(r2, sep);
    OccursInConcat(r3, c);
    OccursInConcat(r4, e);
    OccursExtend(r1, a, 0, b);
    OccursExtend(r1, sep, |a|, b);
    OccursExtend(r2, a, 0, sep);
    OccursExtend(r2, sep, |a|, sep);
    OccursExtend(r2, b, |r1|, sep);
    OccursExtend(r3, a, 0, c);
    OccursExtend(r3, sep, |a|, c);
    OccursExtend(r3, b, |r1|, c);
    OccursExtend(r3, sep, |r2|, c);
    OccursExtend(r4, a, 0, e);
    OccursExtend(r4, sep, |a|, e);
    OccursExtend(r4, b, |r1|, e);
    OccursExtend(r4, sep, |r2|, e);
    OccursExtend(r4, c, |r3|, e);
  }

  /** The popup's layout around its three parts: the magnitude part, a break,
      the depth part, a break, the location part, and the closing tag as the
      template writes it, `<b/>`. */
  function PopupLayout(magPart: string, depthPart: string, placePart: string): (r: string)
    ensures OccursAt(r, magPart, 0)
    ensures OccursAt(r, depthPart, |magPart| + |PopupBreak|)
    ensures OccursAt(r, PopupBreak, |magPart|)
    ensures OccursAt(r, PopupBreak, |magPart| + |PopupBreak| + |depthPart|)
    ensures OccursAt(r, placePart, |magPart| + |PopupBreak| + |depthPart| + |PopupBreak|)
    ensures |r| == |magPart| + |PopupBreak| + |depthPart| + |PopupBreak| + |placePart| + 4
    ensures r[|r| - 4..] == "<b/>"
  {
    LayoutPieces(magPart, PopupBreak, depthPart, placePart, "<b/>");
    magPart + PopupBreak + depthPart + PopupBreak + placePart + "<b/>"
  }

  /** The popup text. `show` is the runtime's conversion of a Number to the
      text a template literal interpolates. */
  function Popup(show: real -> string, f: Feature): (r: string)
    ensures Contains(r, "Magnitude: <b>" + show(Mag(f)) + "</b>")
    ensures Contains(r, "Depth: <b>" + show(Depth(f)) + "</b>")
    ensures Contains(r, "Location: <b>" + f.properties.place)
  {
    PopupLayout(
      "Magnitude: <b>" + show(f.properties.mag) + "</b>",
      "Depth: <b>" + show(f.geometry.coordinates.depth) + "</b>",
      "Location: <b>" + f.properties.place)
  }

  /** Events with the same magnitude and depth text get the same popup only
      when their place names agree. */
  lemma PopupDistinguishesPlaces(show: real -> string, f1: Feature, f2: Feature)
    requires show(Mag(f1)) == show(Mag(f2)) && show(Depth(f1)) == show(Depth(f2))
    requires Popup(show, f1) == Popup(show, f2)
    ensures f1.properties.place == f2.properties.place
  {
    var magPart := "Magnitude: <b>" + show(Mag(f1)) + "</b>";
    var depthPart := "Depth: <b>" + show(Depth(f1)) + "</b>";
    var k := |magPart| + |PopupBreak| + |depthPart| + |PopupBreak| + |"Location: <b>"|;
    var p1, p2 := "Location: <b>" + f1.properties.place, "Location: <b>" + f2.properties.place;
    var r := Popup(show, f1);
    assert r == PopupLayout(magPart, depthPart, p1);
    assert r == PopupLayout(magPart, depthPart, p2);
    assert |r| == k + |f1.properties.place| + 4;
    assert |r| == k + |f2.properties.place| + 4;
    assert f1.properties.place == p1[13..] == r[k..|r| - 4] == p2[13..] == f2.properties.place;
  }

  /** A magnitude 5.2 event at 45 km: amber fill, radius 26, and a popup
      naming magnitude, depth and place. */
  lemma ModerateShallowEvent(show: real -> string)
    requires show(5.2) == "5.2" && show(45.0) == "45"
    ensures var f := Feature(Geometry(Coordinates(0.0, 0.0, 45.0)),
                             Properties(5.2, "10km SW of Example"));
      DataStyle(f).fillColor == "#fcad03" && DataStyle(f).radius == 26.0
      && Contains(Popup(show, f), "Magnitude: <b>5.2</b>")
      && Contains(Popup(show, f), "Depth: <b>45</b>")
      && Contains(Popup(show, f), "Location: <b>10km SW of Example")
  {
    assert "Magnitude: <b>" + show(5.2) + "</b>" == "Magnitude: <b>5.2</b>";
    assert "Depth: <b>" + show(45.0) + "</b>" == "Depth: <b>45</b>";
    assert "Location: <b>" + "10km SW of Example" == "Location: <b>10km SW of Example";
  }

  /** A magnitude 0 event at 95 km: red fill, and the minimum radius 1. */
  lemma ZeroMagnitudeDeepEvent(place: string, lon: real, lat: real)
    ensures var f := Feature(Geometry(Coordinates(lon, lat, 95.0)), Properties(0.0, place));
      DataStyle(f).fillColor == "red" && DataStyle(f).radius == 1.0
  {
  }
}
