/**
 * Scroll anchor names of the gallery: every rendered image is wrapped in a
 * scroll element named `set-<setIndex>-image-<imageIndex>`, the indices written
 * in decimal as a JavaScript template literal writes a non-negative integer.
 */
module Anchors {

  predicate IsDigit(c: char) {
    '0' <= c <= '9'
  }

  predicate AllDigits(s: string) {
    forall k :: 0 <= k < |s| ==> IsDigit(s[k])
  }

  function DigitChar(d: nat): (c: char)
    requires d < 10
    ensures IsDigit(c)
  {
    (d + '0' as int) as char
  }

  function DigitValue(c: char): (d: nat)
    requires IsDigit(c)
    ensures d < 10
  {
    c as int - '0' as int
  }

  /** The decimal form of `n`, without leading zeros (`${n}` in JavaScript). */
  function Decimal(n: nat): (s: string)
    ensures 0 < |s| && AllDigits(s)
    decreases n
  {
    if n < 10 then [DigitChar(n)] else Decimal(n / 10) + [DigitChar(n % 10)]
  }

  /** The number a string of decimal digits denotes. */
  function DecimalValue(s: string): nat
    requires AllDigits(s)
  {
    if s == [] then 0 else DecimalValue(s[..|s| - 1]) * 10 + DigitValue(s[|s| - 1])
  }

  /** Reading back the decimal form gives the number: `Decimal` loses nothing. */
  lemma {:induction false} DecimalRoundTrip(n: nat)
    ensures DecimalValue(Decimal(n)) == n
    decreases n
  {
    var s := Decimal(n);
    if n >= 10 {
      DecimalRoundTrip(n / 10);
      assert s[..|s| - 1] == Decimal(n / 10);
    }
  }

  lemma DecimalInjective(m: nat, n: nat)
    ensures Decimal(m) == Decimal(n) ==> m == n
  {
    DecimalRoundTrip(m);
    DecimalRoundTrip(n);
  }

  const ImageSeparator: string := "-image-"

  /** The anchor of image `imageIndex` in set `setIndex` (ImageList.js, the `Scroll.Element` name). */
  function Anchor(setIndex: nat, imageIndex: nat): string {
    "set-" + Decimal(setIndex) + ImageSeparator + Decimal(imageIndex)
  }

  /** The length of the longest prefix of `s` made of digits. */
  function DigitRun(s: string): (n: nat)
    ensures n <= |s|
  {
    if s == [] || !IsDigit(s[0]) then 0 else 1 + DigitRun(s[1..])
  }

  /** A digit string followed by the separator: the digit run ends where the separator starts. */
  lemma {:induction false} DigitRunBeforeSeparator(a: string, b: string)
    requires AllDigits(a)
    ensures DigitRun(a + ImageSeparator + b) == |a|
  {
    var w := a + ImageSeparator + b;
    if a == [] {
      assert w == ImageSeparator + b;
    } else {
      assert w[1..] == a[1..] + ImageSeparator + b;
      DigitRunBeforeSeparator(a[1..], b);
    }
  }

  /**
   * Two digit strings followed by the separator can only line up one way: the
   * separator starts with '-', which is not a digit.
   */
  lemma SplitAtSeparator(a: string, b: string, c: string, d: string)
    requires AllDigits(a) && AllDigits(c)
    requires a + ImageSeparator + b == c + ImageSeparator + d
    ensures a == c && b == d
  {
    var w := a + ImageSeparator + b;
    DigitRunBeforeSeparator(a, b);
    DigitRunBeforeSeparator(c, d);
    assert a == w[..|a|];
    assert c == (c + ImageSeparator + d)[..|c|];
    assert b == w[|a| + |ImageSeparator|..];
    assert d == (c + ImageSeparator + d)[|c| + |ImageSeparator|..];
  }

  /** Distinct image positions have distinct anchors, so a scroll command names one image. */
  lemma AnchorInjective(s: nat, i: nat, t: nat, j: nat)
    ensures Anchor(s, i) == Anchor(t, j) <==> s == t && i == j
  {
    if Anchor(s, i) == Anchor(t, j) {
      var a, c := Decimal(s), Decimal(t);
      assert Anchor(s, i)[4..] == a + ImageSeparator + Decimal(i);
      assert Anchor(t, j)[4..] == c + ImageSeparator + Decimal(j);
      SplitAtSeparator(a, Decimal(i), c, Decimal(j));
      DecimalInjective(s, t);
      DecimalInjective(i, j);
    }
  }

  /** The anchor the gallery scrolls back to is that of the first image of the first set. */
  lemma TopAnchorIsFirstImage()
    ensures Anchor(0, 0) == "set-0-image-0"
  {
  }
}
