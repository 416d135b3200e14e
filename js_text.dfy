/** The few pieces of JavaScript value semantics that the styling code leans on:
    reading an array slot that may be past the end, the truthiness test of a
    conditional, and the decimal text an integer Number interpolates to inside
    a template literal. */
module JsText {

  datatype Option<+T> = None | Some(value: T)

  /** `a[j]` in JavaScript: the element when `j` is an index of `a`,
      `undefined` (here `None`) otherwise. */
  function At<T>(a: seq<T>, j: int): (r: Option<T>)
    ensures r.Some? ==> r.value in a
    ensures j >= |a| ==> r.None?
  {
    if 0 <= j < |a| then Some(a[j]) else None
  }

  /** Truthiness of a possibly-undefined Number: `undefined` and `0` are falsy,
      every other integer is truthy. */
  predicate Truthy(v: Option<int>) {
    v.Some? && v.value != 0
  }

  /** A table lookup `a[j]` is truthy exactly when `j` is in range and the entry
      there is not zero. */
  lemma TruthyLookup(a: seq<int>, j: int)
    ensures Truthy(At(a, j)) <==> 0 <= j < |a| && a[j] != 0
  {
  }

  predicate IsDigit(c: char) {
    '0' <= c <= '9'
  }

  predicate AllDigits(s: string) {
    forall i :: 0 <= i < |s| ==> IsDigit(s[i])
  }

  function DigitChar(d: nat): (c: char)
    requires d < 10
    ensures IsDigit(c)
  {
    "0123456789"[d]
  }

  function DigitValue(c: char): (d: nat)
    requires IsDigit(c)
    ensures d < 10
  {
    (c as int - '0' as int) as nat
  }

  /** The decimal numeral of a natural number, most significant digit first,
      with no leading zeros. */
  function NatToString(n: nat): (s: string)
    ensures |s| >= 1 && AllDigits(s)
    ensures |s| > 1 ==> s[0] != '0'
    decreases n
  {
    if n < 10 then [DigitChar(n)] else NatToString(n / 10) + [DigitChar(n % 10)]
  }

  /** The text `${n}` gives for an integer-valued Number `n`: a minus sign for
      negative values, then the decimal numeral of the magnitude. */
  function IntToString(n: int): (s: string)
    ensures |s| >= 1
    ensures s[0] == '-' <==> n < 0
  {
    if n < 0 then "-" + NatToString(-n) else NatToString(n)
  }

  /** Reads a non-empty digit string back as a natural number. */
  function ParseNat(s: string): nat
    requires |s| >= 1 && AllDigits(s)
    decreases |s|
  {
    if |s| == 1 then DigitValue(s[0])
    else ParseNat(s[..|s| - 1]) * 10 + DigitValue(s[|s| - 1])
  }

  /** Reads an optionally negative decimal integer; anything else is `None`. */
  function ParseInt(s: string): Option<int> {
    if |s| >= 2 && s[0] == '-' && AllDigits(s[1..]) then Some(-(ParseNat(s[1..]) as int))
    else if |s| >= 1 && AllDigits(s) then Some(ParseNat(s))
    else None
  }

  lemma DigitRoundTrip(d: nat)
    requires d < 10
    ensures DigitValue(DigitChar(d)) == d
  {
  }

  lemma {:induction false} ParseNatToString(n: nat)
    ensures ParseNat(NatToString(n)) == n
    decreases n
  {
    DigitRoundTrip(n % 10);
    if n >= 10 {
      var s := NatToString(n);
      assert s[..|s| - 1] == NatToString(n / 10);
      ParseNatToString(n / 10);
    }
  }

  /** The integer text is decodable: reading it back yields the same integer,
      so distinct integers never print alike. */
  lemma IntToStringRoundTrip(n: int)
    ensures ParseInt(IntToString(n)) == Some(n)
  {
    if n < 0 {
      var digits := NatToString(-n);
      var s := "-" + digits;
      assert IntToString(n) == s;
      assert s[1..] == digits;
      ParseNatToString(-n);
      assert ParseInt(s) == Some(-(ParseNat(digits) as int));
    } else {
      var s := NatToString(n);
      assert IsDigit(s[0]);
      ParseNatToString(n);
      assert ParseInt(s) == Some(ParseNat(s));
    }
  }

  /** `t` occurs in `s` starting at position `k`. */
  predicate OccursAt(s: string, t: string, k: int) {
    0 <= k <= |s| - |t| && s[k..k + |t|] == t
  }

  /** `t` occurs in `s` as a contiguous piece. */
  ghost predicate Contains(s: string, t: string) {
    exists k :: OccursAt(s, t, k)
  }

  /** Both halves of `a + b` occur in it where they were put. */
  lemma OccursInConcat(a: string, b: string)
    ensures OccursAt(a + b, a, 0)
    ensures OccursAt(a + b, b, |a|)
  {
    assert (a + b)[..|a|] == a;
    assert (a + b)[|a|..|a| + |b|] == b;
  }

  /** An occurrence survives text appended after it, and shifts by the
      length of text put before it. */
  lemma OccursExtend(s: string, t: string, k: int, u: string)
    requires OccursAt(s, t, k)
    ensures OccursAt(s + u, t, k)
    ensures OccursAt(u + s, t, |u| + k)
  {
    assert (s + u)[k..k + |t|] == s[k..k + |t|];
    assert (u + s)[|u| + k..|u| + k + |t|] == s[k..k + |t|];
  }

  /** `s` begins with `p`. */
  predicate StartsWith(s: string, p: string) {
    |p| <= |s| && s[..|p|] == p
  }

  /** `s` ends with `p`. */
  predicate EndsWith(s: string, p: string) {
    |p| <= |s| && s[|s| - |p|..] == p
  }

  /** The concatenation of `parts`, in order. */
  function Join(parts: seq<string>): string
    decreases |parts|
  {
    if parts == [] then "" else Join(parts[..|parts| - 1]) + parts[|parts| - 1]
  }

  /** Part `i` stands whole in the concatenation, right after parts 0 to i-1. */
  lemma {:induction false} JoinPartAt(parts: seq<string>, i: nat)
    requires i < |parts|
    ensures OccursAt(Join(parts), parts[i], |Join(parts[..i])|)
    decreases |parts|
  {
    var init, last := parts[..|parts| - 1], parts[|parts| - 1];
    if i == |parts| - 1 {
      assert parts[..i] == init;
      OccursInConcat(Join(init), last);
    } else {
      JoinPartAt(init, i);
      assert init[..i] == parts[..i];
      OccursExtend(Join(init), parts[i], |Join(parts[..i])|, last);
    }
  }
}
