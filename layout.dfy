/** The station's screen layout (`WeatherStation.__init__`): six blocks
    computed once from the display size and three ratios. The ratios are
    exact fractions here; the source's floats make `1 - 0.7` slightly more
    than 0.3. Nothing checks that the ratios lie between 0 and 1. */
module Layout {
  import opened Utils

  /** A ratio `num / den`. */
  datatype Fraction = Fraction(num: int, den: int)
  type Ratio = f: Fraction | f.den > 0 witness Fraction(0, 1)

  /** A ratio between 0 and 1. */
  predicate Proper(r: Ratio) {
    0 <= r.num <= r.den
  }

  /** `1 - r`, exactly. */
  function Complement(r: Ratio): (c: Ratio)
    ensures c.num + r.num == c.den == r.den
  {
    Fraction(r.den - r.num, r.den)
  }

  /** `int(n * r)`: `int` of a float truncates toward zero. */
  function Scale(n: int, r: Ratio): (s: int)
    ensures n * r.num >= 0 ==> s * r.den <= n * r.num < s * r.den + r.den
    ensures n * r.num <= 0 ==> s * r.den - r.den < n * r.num <= s * r.den
  {
    var x := n * r.num;
    if x >= 0 then x / r.den else -((-x) / r.den)
  }

  /** Python's `a // b` for a positive `b`, where it agrees with Dafny's
      division (both round toward minus infinity). */
  function FloorDiv(a: int, b: int): (q: int)
    requires b > 0
    ensures q * b <= a < q * b + b
  {
    a / b
  }

  /** The defaults of the constructor: 0.6, 0.7, 0.4 and two margins of
      50 pixels. */
  const DefaultGridRatio: Ratio := Fraction(3, 5)
  const DefaultTimeRatio: Ratio := Fraction(7, 10)
  const DefaultIconRatio: Ratio := Fraction(2, 5)
  const DefaultTimeLeftMargin: int := 50
  const DefaultIconMargin: int := 50

  datatype Layout = Layout(time: Block, grid: Block, short: Block, user: Block, icon: Block, description: Block)

  /** Lines 43-76 of the constructor. The clock (`time_block`) and the
      current-weather summary (`short_weather_block`) share the left column,
      the forecast grid (4:3) and the user picture the right one; the icon
      and the description blocks are placed inside the summary block. */
  function ComputeLayout(width: int, height: int, gridRatio: Ratio, timeRatio: Ratio, iconRatio: Ratio,
                         iconMargin: int): (l: Layout)
    // the two columns split the width, and the grid starts where the clock ends
    ensures l.time.width + l.grid.width == width
    ensures l.time.pasteCoord == (0, 0) && l.grid.pasteCoord == (l.time.width, 0)
    ensures l.grid.height == FloorDiv(l.grid.width, 4) * 3
    // the summary sits under the clock, as wide as it
    ensures l.short.pasteCoord == (0, l.time.height) && l.short.width == l.time.width
    // the user block fills the right column under the grid
    ensures l.user.pasteCoord == (l.grid.pasteCoord.0, l.grid.height) && l.user.width == l.grid.width
    ensures l.grid.height + l.user.height == height
    ensures l.user.height < 0 <==> l.grid.height > height
    // the icon and the description share the summary's height, side by side
    ensures l.icon.height == l.description.height == l.short.height
    ensures l.icon.pasteCoord == (0, iconMargin)
    ensures l.description.pasteCoord == (l.icon.width, FloorDiv(l.short.height, 2))
  {
    var gridWidth := Scale(width, gridRatio);
    var gridHeight := FloorDiv(gridWidth, 4) * 3;
    var time := Block(width - gridWidth, Scale(height, timeRatio), (0, 0));
    var grid := Block(gridWidth, gridHeight, (time.width, 0));
    var short := Block(width - grid.width, Scale(height, Complement(timeRatio)), (0, time.height));
    var user := Block(grid.width, height - grid.height, (time.width, grid.height));
    var icon := Block(Scale(short.width, iconRatio), short.height, (0, iconMargin));
    var description := Block(Scale(short.width, Complement(iconRatio)), short.height,
                             (icon.width, FloorDiv(short.height, 2)));
    Layout(time, grid, short, user, icon, description)
  }

  /** Splitting `n` pixels by a proper ratio and by its complement loses at
      most one pixel to rounding and never overshoots. */
  lemma SplitLosesAtMostOne(n: int, r: Ratio)
    requires n >= 0 && Proper(r)
    ensures n - 1 <= Scale(n, r) + Scale(n, Complement(r)) <= n
  {
    var c := Complement(r);
    var d := r.den;
    var a, b := Scale(n, r), Scale(n, c);
    var x, y := n * r.num, n * c.num;
    NonNegativeProduct(n, r.num);
    NonNegativeProduct(n, c.num);
    assert x + y == n * d by {
      assert c.num == d - r.num;
      assert n * (d - r.num) == n * d - n * r.num;
    }
    assert a * d <= x < a * d + d;
    assert b * d <= y < b * d + d;
    assert (a + b) * d == a * d + b * d;
    assert (a + b + 2) * d == a * d + b * d + 2 * d;
    ProductOrder(a + b, n, d);
    ProductOrder(n, a + b + 1, d);
    assert (a + b + 1) * d == a * d + b * d + d;
  }

  /** A proper share of `n` pixels lies between 0 and `n`. */
  lemma ScaleProper(n: int, r: Ratio)
    requires n >= 0 && Proper(r)
    ensures 0 <= Scale(n, r) <= n
  {
    var s := Scale(n, r);
    NonNegativeProduct(n, r.num);
    assert n * r.num <= n * r.den by {
      assert n * r.den - n * r.num == n * (r.den - r.num);
      NonNegativeProduct(n, r.den - r.num);
    }
    assert s * r.den <= n * r.num < s * r.den + r.den;
    ProductOrder(s, n, r.den);
    ProductOrder(-1, s, r.den);
  }

  lemma NonNegativeProduct(p: int, q: int)
    requires p >= 0 && q >= 0
    ensures p * q >= 0
  {
  }

  /** Multiplying by a positive number keeps the order. */
  lemma ProductOrder(p: int, q: int, d: int)
    requires d > 0
    ensures p <= q <==> p * d <= q * d
  {
    if p <= q {
      assert q * d == p * d + (q - p) * d;
      NonNegativeProduct(q - p, d);
    } else {
      assert p * d == q * d + (p - q) * d;
      assert (p - q) * d >= d by {
        NonNegativeProduct(p - q - 1, d);
        assert (p - q) * d == (p - q - 1) * d + d;
      }
    }
  }

  /** The clock and the summary together fill the left column's height,
      up to one pixel of rounding, when the vertical ratio is proper. */
  lemma LeftColumnHeight(width: int, height: int, gridRatio: Ratio, timeRatio: Ratio, iconRatio: Ratio, iconMargin: int)
    requires height >= 0 && Proper(timeRatio)
    ensures var l := ComputeLayout(width, height, gridRatio, timeRatio, iconRatio, iconMargin);
            height - 1 <= l.time.height + l.short.height <= height
  {
    SplitLosesAtMostOne(height, timeRatio);
  }

  /** The icon and the description fit side by side in the summary block,
      up to one pixel of rounding, when both ratios are proper. */
  lemma SummaryWidth(width: int, height: int, gridRatio: Ratio, timeRatio: Ratio, iconRatio: Ratio, iconMargin: int)
    requires width >= 0 && Proper(gridRatio) && Proper(iconRatio)
    ensures var l := ComputeLayout(width, height, gridRatio, timeRatio, iconRatio, iconMargin);
            && l.description.pasteCoord.0 == l.icon.width
            && l.short.width - 1 <= l.icon.width + l.description.width <= l.short.width
  {
    ScaleProper(width, gridRatio);
    SplitLosesAtMostOne(width - Scale(width, gridRatio), iconRatio);
  }

  /** The default ratios on a 1872 x 1404 panel: the float and the exact
      computations give the same blocks there. */
  lemma DefaultLayoutExample()
    ensures var l := ComputeLayout(1872, 1404, DefaultGridRatio, DefaultTimeRatio, DefaultIconRatio, DefaultIconMargin);
            && l.time == Block(749, 982, (0, 0))
            && l.grid == Block(1123, 840, (749, 0))
            && l.short == Block(749, 421, (0, 982))
            && l.user == Block(1123, 564, (749, 840))
            && l.icon == Block(299, 421, (0, 50))
            && l.description == Block(449, 421, (299, 210))
  {
  }

  /** Unvalidated ratios give negative blocks: a grid ratio of 1 on a
      landscape 4:3 panel makes the grid taller than the display. */
  lemma TallGridExample()
    ensures var l := ComputeLayout(800, 500, Fraction(1, 1), DefaultTimeRatio, DefaultIconRatio, DefaultIconMargin);
            l.grid.height == 600 && l.user.height == -100 && l.time.width == 0
  {
  }
}
