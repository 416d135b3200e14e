/** The feature classifier: an earthquake's depth (km) picks one of six fill
    colours by a descending step function with strict thresholds, and its
    magnitude picks the circle-marker radius. Depth and magnitude are taken
    as mathematical reals. */
module Classify {

  import opened JsText

  /** The six fill colours, listed from the shallowest band to the deepest. */
  datatype Color = Green | YellowGreen | Amber | Orange | OrangeRed | Red
  {
    /** The CSS colour string the classifier returns for this band. */
    function Css(): string {
      match this
      case Green => "green"
      case YellowGreen => "#cafc03"
      case Amber => "#fcad03"
      case Orange => "#fc8403"
      case OrangeRed => "#fc4903"
      case Red => "red"
    }

    /** Position of the band in shallow-to-deep order. */
    function Rank(): (k: nat)
      ensures k < 6
    {
      match this
      case Green => 0
      case YellowGreen => 1
      case Amber => 2
      case Orange => 3
      case OrangeRed => 4
      case Red => 5
    }
  }

  /** The band of rank `k`. */
  function ColorOfRank(k: nat): (c: Color)
    requires k < 6
    ensures c.Rank() == k
  {
    if k == 0 then Green
    else if k == 1 then YellowGreen
    else if k == 2 then Amber
    else if k == 3 then Orange
    else if k == 4 then OrangeRed
    else Red
  }

  /** Reads a CSS colour string back as a band; strings the classifier never
      returns are `None`. */
  function ColorOfCss(s: string): (r: Option<Color>) {
    if s == "green" then Some(Green)
    else if s == "#cafc03" then Some(YellowGreen)
    else if s == "#fcad03" then Some(Amber)
    else if s == "#fc8403" then Some(Orange)
    else if s == "#fc4903" then Some(OrangeRed)
    else if s == "red" then Some(Red)
    else None
  }

  /** The six colour strings are pairwise distinct: each one names its band. */
  lemma CssRoundTrip(c: Color)
    ensures ColorOfCss(c.Css()) == Some(c)
  {
  }

  /** The depth thresholds (km), ascending. */
  const Thresholds: seq<real> := [10.0, 30.0, 50.0, 70.0, 90.0]

  /** Depth-to-colour: first match from the top, every comparison strictly
      greater-than. */
  function DataColor(depth: real): (c: Color)
    ensures InBand(depth, c.Rank())
  {
    if depth > 90.0 then Red
    else if depth > 70.0 then OrangeRed
    else if depth > 50.0 then Orange
    else if depth > 30.0 then Amber
    else if depth > 10.0 then YellowGreen
    else Green
  }

  /** How many of the thresholds `ts` the depth lies strictly above: the
      reference definition of the band a depth belongs to. */
  function Exceeded(ts: seq<real>, depth: real): (n: nat)
    ensures n <= |ts|
  {
    if ts == [] then 0
    else (if depth > ts[0] then 1 else 0) + Exceeded(ts[1..], depth)
  }

  /** Exceeded can only grow as the depth grows. */
  lemma {:induction false} ExceededMonotone(ts: seq<real>, d1: real, d2: real)
    requires d1 <= d2
    ensures Exceeded(ts, d1) <= Exceeded(ts, d2)
    decreases |ts|
  {
    if ts != [] {
      ExceededMonotone(ts[1..], d1, d2);
    }
  }

  /** Depth `d` lies in band `k`: above threshold k-1 (if any) and at most
      threshold k (if any). */
  predicate InBand(depth: real, k: nat)
    requires k < 6
  {
    (k == 0 || Thresholds[k - 1] < depth) && (k == 5 || depth <= Thresholds[k])
  }

  /** The bands are exhaustive and non-overlapping, and the classifier returns
      exactly the band the depth lies in. */
  lemma DataColorIsBand(depth: real, c: Color)
    ensures DataColor(depth) == c <==> InBand(depth, c.Rank())
  {
  }

  predicate Ascending(ts: seq<real>) {
    forall i, j :: 0 <= i < j < |ts| ==> ts[i] < ts[j]
  }

  /** Over an ascending table, the count of exceeded thresholds is the one
      position `n` with the depth above entry n-1 and at most entry n. */
  lemma {:induction false} ExceededAscending(ts: seq<real>, depth: real)
    requires Ascending(ts)
    ensures var n := Exceeded(ts, depth);
      (n == 0 || ts[n - 1] < depth) && (n == |ts| || depth <= ts[n])
    decreases |ts|
  {
    if ts != [] {
      var rest := ts[1..];
      assert Ascending(rest) by {
        forall i, j | 0 <= i < j < |rest| ensures rest[i] < rest[j] {
          assert rest[i] == ts[i + 1] && rest[j] == ts[j + 1];
        }
      }
      ExceededAscending(rest, depth);
    }
  }

  /** The classifier's band is the number of thresholds the depth strictly
      exceeds. */
  lemma DataColorRank(depth: real)
    ensures DataColor(depth).Rank() == Exceeded(Thresholds, depth)
  {
    ExceededAscending(Thresholds, depth);
    var n := Exceeded(Thresholds, depth);
    DataColorIsBand(depth, ColorOfRank(n));
  }

  /** The classifier is monotone in band order: a deeper event never gets a
      shallower band. */
  lemma DataColorMonotone(d1: real, d2: real)
    requires d1 <= d2
    ensures DataColor(d1).Rank() <= DataColor(d2).Rank()
  {
    DataColorRank(d1);
    DataColorRank(d2);
    ExceededMonotone(Thresholds, d1, d2);
  }

  /** Each threshold belongs to the band below it (strictness), and everything
      above it is in a higher band. */
  lemma ThresholdIsStrict(k: nat, depth: real)
    requires k < 5
    ensures DataColor(Thresholds[k]).Rank() == k
    ensures depth > Thresholds[k] ==> DataColor(depth).Rank() > k
  {
    DataColorRank(Thresholds[k]);
    DataColorRank(depth);
    if depth > Thresholds[k] {
      DataColorIsBand(depth, DataColor(depth));
    }
  }

  /** Magnitude-to-radius: exactly zero gets radius 1 so that it stays
      visible; any other magnitude, negative ones included, is scaled by 5. */
  function RadiusSize(mag: real): (r: real)
    ensures mag == 0.0 ==> r == 1.0
    ensures r != 0.0
    ensures r > 0.0 <==> mag >= 0.0
    ensures mag != 0.0 ==> r / 5.0 == mag
  {
    if mag == 0.0 then 1.0 else mag * 5.0
  }

  /** Every magnitude strictly between 0 and 0.2 draws a smaller circle than
      magnitude 0 does. */
  lemma RadiusDipsNearZero(m: real)
    requires 0.0 < m < 0.2
    ensures RadiusSize(m) < RadiusSize(0.0)
  {
  }

  /** Away from zero the radius determines the magnitude. */
  lemma RadiusInjective(m1: real, m2: real)
    requires m1 != 0.0 && m2 != 0.0
    requires RadiusSize(m1) == RadiusSize(m2)
    ensures m1 == m2
  {
  }

  /** The zero special case breaks monotonicity: magnitude 0.1 draws a smaller
      circle than magnitude 0, and magnitude 0.2 the same one. */
  lemma RadiusNotMonotoneNearZero()
    ensures RadiusSize(0.1) < RadiusSize(0.0)
    ensures RadiusSize(0.2) == RadiusSize(0.0)
  {
  }
}
