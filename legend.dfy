/** The map legend: a panel with one row per depth band, each row a colour
    swatch and the band's depth range. Its tables of interval starts and
    colours are written out separately from the classifier, so the lemmas
    here check that the two agree. */
module Legend {

  import opened JsText
  import opened Classify

  /** The start of each depth interval (km), shallowest first. */
  const Intervals: seq<int> := [-10, 10, 30, 50, 70, 90]

  /** The swatch colour of each interval, in the same order. */
  const Colors: seq<string> := ["green", "#cafc03", "#fcad03", "#fc8403", "#fc4903", "red"]

  /** A row's text for interval start `start` and next table entry `next`:
      the start, then either "km &ndash; " and the next start when that entry
      is truthy, or "km+" when it is not. */
  function Label(start: int, next: Option<int>): (r: string)
    ensures StartsWith(r, IntToString(start))
    ensures Truthy(next) ==>
      OccursAt(r, IntToString(next.value), |IntToString(start)| + |"km &ndash; "|)
    ensures Truthy(next) ==> OccursAt(r, "km &ndash; ", |IntToString(start)|)
    ensures Truthy(next) ==> EndsWith(r, "km")
    ensures Truthy(next) ==>
      |r| == |IntToString(start)| + |"km &ndash; "| + |IntToString(next.value)| + 2
    ensures EndsWith(r, "km+") <==> !Truthy(next)
    ensures !Truthy(next) ==> |r| == |IntToString(start)| + 3
  {
    var head := IntToString(start);
    if Truthy(next) then
      var text := IntToString(next.value);
      LabelPieces(head, "km &ndash; ", text, "km");
      var r := head + "km &ndash; " + text + "km";
      assert r[|r| - 1] == 'm';
      r
    else
      OccursInConcat(head, "km+");
      head + "km+"
  }

  /** Where each piece of `head + sep + text + tail` stands. */
  lemma LabelPieces(head: string, sep: string, text: string, tail: string)
    ensures var r := head + sep + text + tail;
      && OccursAt(r, head, 0)
      && OccursAt(r, sep, |head|)
      && OccursAt(r, text, |head| + |sep|)
      && OccursAt(r, tail, |head| + |sep| + |text|)
  {
    var r1 := head + sep;
    var r2 := r1 + text;
    OccursInConcat(head, sep);
    OccursInConcat(r1, text);
    OccursInConcat(r2, tail);
    OccursExtend(r1, head, 0, text);
    OccursExtend(r1, sep, |head|, text);
    OccursExtend(r2, head, 0, tail);
    OccursExtend(r2, sep, |head|, tail);
    OccursExtend(r2, text, |r1|, tail);
  }

  /** The text of row `i`: the label for its interval start and for the
      entry after it, read as `intervals[i + 1]` reads past the end. */
  function LabelText(i: nat): string
    requires i < |Intervals|
  {
    Label(Intervals[i], At(Intervals, i + 1))
  }

  /** The markup around a row's swatch colour and label text. */
  const RowOpen: string :=
    "<div style=\"background: white; padding: 2px; display: inline-block; margin-bottom: 2px;\">\n"
    + "        <i style=\"background: "
  const RowSwatchClose: string :=
    "; width: 12px; height: 12px; display: inline-block; margin-right: 6px;\"></i>\n        "
  const RowClose: string := "\n      </div><br>"

  /** One legend row: a swatch of colour `color`, then the label `text`. */
  function RowMarkup(color: string, text: string): (r: string)
    ensures OccursAt(r, color, |RowOpen|)
    ensures OccursAt(r, text, |RowOpen| + |color| + |RowSwatchClose|)
    ensures |r| == |RowOpen| + |color| + |RowSwatchClose| + |text| + |RowClose|
  {
    var withColor := RowOpen + color;
    var withSwatch := withColor + RowSwatchClose;
    var withLabel := withSwatch + text;
    OccursInConcat(RowOpen, color);
    OccursExtend(withColor, color, |RowOpen|, RowSwatchClose);
    OccursExtend(withSwatch, color, |RowOpen|, text);
    OccursExtend(withLabel, color, |RowOpen|, RowClose);
    OccursInConcat(withSwatch, text);
    OccursExtend(withLabel, text, |withSwatch|, RowClose);
    withLabel + RowClose
  }

  /** The markup the loop appends for row `i`: its swatch colour is
      `Colors[i]` and its text is row `i`'s label. */
  function RowHtml(i: nat): (r: string)
    requires i < |Intervals|
    ensures OccursAt(r, Colors[i], |RowOpen|)
    ensures OccursAt(r, LabelText(i), |RowOpen| + |Colors[i]| + |RowSwatchClose|)
  {
    RowMarkup(Colors[i], LabelText(i))
  }

  /** The markups of the first `n` rows, in table order. */
  function Rows(n: nat): seq<string>
    requires n <= |Intervals|
  {
    seq(n, j requires 0 <= j < n => RowHtml(j))
  }

  /** The markup of the first `n` rows, in table order. */
  function LegendHtml(n: nat): (r: string)
    requires n <= |Intervals|
    ensures r == "" <==> n == 0
  {
    Join(Rows(n))
  }

  /** Each loop turn's append: the first i+1 rows are the first i rows, then
      row i. */
  lemma LegendGrows(i: nat)
    requires i < |Intervals|
    ensures LegendHtml(i + 1) == LegendHtml(i) + RowHtml(i)
  {
    assert Rows(i + 1)[..i] == Rows(i);
  }

  /** The element the legend is drawn into. */
  class Div {
    var className: string
    var innerHTML: string

    constructor (className: string)
      ensures this.className == className && innerHTML == ""
    {
      this.className := className;
      innerHTML := "";
    }
  }

  /** Builds the legend panel: a fresh "info legend" element whose markup
      gains one row per interval. */
  method OnAdd() returns (div: Div)
    ensures fresh(div) && div.className == "info legend"
    ensures div.innerHTML == LegendHtml(|Intervals|)
  {
    div := new Div("info legend");
    var i := 0;
    while i < |Intervals|
      invariant 0 <= i <= |Intervals|
      invariant div.className == "info legend"
      invariant div.innerHTML == LegendHtml(i)
    {
      LegendGrows(i);
      div.innerHTML := div.innerHTML + RowHtml(i);
      i := i + 1;
    }
  }

  /** Row `i` stands in the legend, whole, right after rows 0 to i-1: the
      legend is exactly its rows in table order. */
  lemma LegendRowAt(n: nat, i: nat)
    requires i < n <= |Intervals|
    ensures OccursAt(LegendHtml(n), RowHtml(i), |LegendHtml(i)|)
  {
    var rows := Rows(n);
    assert rows[..i] == Rows(i);
    assert OccursAt(Join(rows), rows[i], |Join(rows[..i])|) by {
      JoinPartAt(rows, i);
    }
  }

  /** The truthiness test on the next entry holds exactly for the rows that
      have a next entry, because no interval start after the first is zero. */
  lemma NextEntryTruthy(i: nat)
    requires i < |Intervals|
    ensures Truthy(At(Intervals, i + 1)) <==> i + 1 < |Intervals|
  {
    TruthyLookup(Intervals, i + 1);
  }

  /** Rows 0 to 4 read "a km &ndash; b km" for consecutive interval starts;
      the last row reads "90km+". */
  lemma LabelTexts(i: nat)
    requires i < |Intervals|
    ensures i + 1 < |Intervals| ==>
      LabelText(i) == IntToString(Intervals[i]) + "km &ndash; " + IntToString(Intervals[i + 1]) + "km"
    ensures i + 1 == |Intervals| ==> LabelText(i) == "90km+"
  {
    NextEntryTruthy(i);
    var next := At(Intervals, i + 1);
    if i + 1 < |Intervals| {
      assert next == Some(Intervals[i + 1]);
    } else {
      assert next == None;
      assert IntToString(90) == "90" by {
        assert NatToString(9) == "9";
        assert NatToString(90) == NatToString(9) + [DigitChar(0)];
      }
    }
  }

  /** The legend's tables are the classifier's: entries 1 to 5 of the
      intervals are its thresholds, and colour i is the band of rank i. */
  lemma TablesMatchClassifier(i: nat)
    requires i < |Intervals|
    ensures |Colors| == |Intervals| == |Thresholds| + 1
    ensures i >= 1 ==> Intervals[i] as real == Thresholds[i - 1]
    ensures Colors[i] == ColorOfRank(i).Css()
  {
  }

  /** Every depth gets exactly one of the six colours the legend lists: the
      one on the row whose index is the depth's band. */
  lemma ClassifierUsesLegendColors(depth: real)
    ensures DataColor(depth).Css() in Colors
    ensures Colors[DataColor(depth).Rank()] == DataColor(depth).Css()
  {
    TablesMatchClassifier(DataColor(depth).Rank());
  }

  /** Every depth the classifier puts in band i gets the colour the legend
      shows on row i: above row i's start (for i >= 1; row 0 also takes every
      depth below its printed start) and at most row i+1's start (for the
      rows that have one). */
  lemma LegendAgreesWithClassifier(i: nat, depth: real)
    requires i < |Intervals|
    requires i == 0 || Intervals[i] as real < depth
    requires i + 1 == |Intervals| || depth <= Intervals[i + 1] as real
    ensures DataColor(depth).Css() == Colors[i]
  {
    TablesMatchClassifier(i);
    DataColorIsBand(depth, ColorOfRank(i));
  }
}
