/** The colour pairs confetti are painted with, and the random pick of one pair
    (`COLORS` and `getRandomColors` in Confetti.ts). */
module Palette {
  import opened Numerics

  /** A `[front, back]` pair of CSS colour strings. */
  datatype ColorPair = ColorPair(front: string, back: string)

  /** The default palette. */
  const COLORS: seq<ColorPair> := [
    ColorPair("#df0049", "#660671"),
    ColorPair("#00e857", "#005291"),
    ColorPair("#2bebbc", "#05798a"),
    ColorPair("#ffd200", "#b06c00")
  ]

  /** `Math.round(Math.random() * (colors.length - 1))`: always a valid index of a
      non-empty palette. */
  function ColorIndex(n: nat, r: Unit): (i: nat)
    requires 0 < n
    ensures i < n
  {
    var x := r * (n - 1) as real;
    ScaledUnit(r, (n - 1) as real);
    Round(x)
  }

  /** The pair `getRandomColors(colors)()` returns for the draw `r`. */
  function PickColors(colors: seq<ColorPair>, r: Unit): (c: ColorPair)
    requires |colors| > 0
    ensures c in colors
  {
    colors[ColorIndex(|colors|, r)]
  }

  /** A single-pair palette always yields that pair. */
  lemma SinglePair(c: ColorPair, r: Unit)
    ensures PickColors([c], r) == c
  {
    assert ColorIndex(1, r) == 0;
  }

  /** Rounding makes the pick non-uniform: the first pair is chosen exactly when the
      draw falls in the first half-step [0, 1/(2(n-1))), which is half as wide as the
      interval of an inner pair (`InnerPairFullWeight`). */
  lemma FirstPairHalfWeight(n: nat, r: Unit)
    requires 2 <= n
    ensures ColorIndex(n, r) == 0 <==> r < 1.0 / (2.0 * (n - 1) as real)
  {
    var k := (n - 1) as real;
    var i := ColorIndex(n, r);
    assert r * k - 0.5 < i as real <= r * k + 0.5;
    HalfStep(r, k);
  }

  /** The last pair is chosen exactly when the draw is at least 1 - 1/(2(n-1)). */
  lemma LastPairHalfWeight(n: nat, r: Unit)
    requires 2 <= n
    ensures ColorIndex(n, r) == n - 1 <==> 1.0 - 1.0 / (2.0 * (n - 1) as real) <= r
  {
    var k := (n - 1) as real;
    var i := ColorIndex(n, r);
    assert r * k - 0.5 < i as real <= r * k + 0.5;
    HalfStep(1.0 - r, k);
    assert (1.0 - r) * k == k - r * k;
  }

  /** An inner pair i is chosen exactly when the draw falls in
      [(i - 1/2)/(n-1), (i + 1/2)/(n-1)), an interval of width 1/(n-1): twice the
      width of the first or the last pair's. */
  lemma InnerPairFullWeight(n: nat, r: Unit, i: nat)
    requires 0 < i < n - 1
    ensures ColorIndex(n, r) == i <==>
      (i as real - 0.5) / (n - 1) as real <= r < (i as real + 0.5) / (n - 1) as real
  {
    var k := (n - 1) as real;
    var x := r * k;
    assert ColorIndex(n, r) == Round(x);
    RoundIs(x, i);
    DividedBound(r, k, i as real + 0.5);
    DividedBound(r, k, i as real - 0.5);
  }

  /** Math.round(x) is i exactly when x lies in [i - 1/2, i + 1/2). */
  lemma RoundIs(x: real, i: int)
    ensures Round(x) == i <==> i as real - 0.5 <= x < i as real + 0.5
  {
    var j := Round(x);
    if i as real - 0.5 <= x < i as real + 0.5 {
      assert (i - j) as real < 1.0 && (j - i) as real < 1.0;
    }
  }

  /** For a positive k, r * k stays below c exactly when r stays below c / k. */
  lemma DividedBound(r: real, k: real, c: real)
    requires 0.0 < k
    ensures r * k < c <==> r < c / k
  {
    var h := c / k;
    assert h * k == c;
    if r < h {
      StrictlyScaled(r, h, k, c);
    } else if h < r {
      StrictlyScaledAbove(h, r, k, c);
    }
  }

  /** For a positive step count k, r * k stays below (or reaches at most) one half
      exactly when r stays below (or reaches at most) 1/(2k). */
  lemma HalfStep(r: real, k: real)
    requires 0.0 < k
    ensures r * k < 0.5 <==> r < 1.0 / (2.0 * k)
    ensures r * k <= 0.5 <==> r <= 1.0 / (2.0 * k)
  {
    var h := 1.0 / (2.0 * k);
    assert h * k == 0.5;
    if r < h {
      StrictlyScaled(r, h, k, 0.5);
    } else if h < r {
      StrictlyScaledAbove(h, r, k, 0.5);
    } else {
      assert r == h;
      assert r * k == 0.5;
    }
  }

  /** Multiplying by a positive k keeps a strict order; c names the product b * k. */
  lemma StrictlyScaled(a: real, b: real, k: real, c: real)
    requires 0.0 < k && a < b && b * k == c
    ensures a * k < c
  {
    PositiveProduct(b - a, k);
    assert (b - a) * k == b * k - a * k;
  }

  lemma StrictlyScaledAbove(a: real, b: real, k: real, c: real)
    requires 0.0 < k && a < b && a * k == c
    ensures c < b * k
  {
    PositiveProduct(b - a, k);
    assert (b - a) * k == b * k - a * k;
  }

  lemma PositiveProduct(a: real, b: real)
    requires 0.0 < a && 0.0 < b
    ensures 0.0 < a * b
  {
  }
}
