/** The scalar helpers the boids code borrows from JavaScript's `Math` and from
    three.js's `MathUtils`: `Math.abs`, `Math.max`, `Math.min`, `Math.PI`, and
    the two random draws `randFloat` and `randInt`.

    Randomness is not modelled as an effect: every call of `Math.random()` is a
    `Unit` value handed in by the caller, and the draws compute from it exactly
    as three.js does. */
module MathUtils {

  /** `Math.PI`, the double nearest to pi, written as its shortest decimal. */
  const Pi: real := 3.141592653589793

  /** One value of `Math.random()`: a real in the half-open interval [0, 1). */
  type Unit = u: real | 0.0 <= u < 1.0

  function Abs(x: real): real {
    if x < 0.0 then -x else x
  }

  function Max(a: real, b: real): real {
    if a < b then b else a
  }

  function Min(a: real, b: real): real {
    if a < b then a else b
  }

  /** A draw stretched over a span: `Math.random() * span`. It lies in
      [0, span] for a non-negative span, strictly below a positive one, and
      in (span, 0] for a negative one. */
  function Stretch(u: Unit, span: real): (m: real)
    ensures 0.0 <= span ==> 0.0 <= m <= span
    ensures 0.0 < span ==> m < span
    ensures span < 0.0 ==> span < m <= 0.0
  {
    if 0.0 <= span then
      ProductNonNegative(u, span);
      ProductNonNegative(1.0 - u, span);
      assert span - u * span == (1.0 - u) * span;
      if 0.0 < span then
        ProductPositive(1.0 - u, span);
        u * span
      else
        u * span
    else
      var m := u * span;
      StretchNegative(u, span, m);
      m
  }

  /** A draw stretched over a negative span stays in (span, 0]. */
  lemma StretchNegative(u: real, span: real, m: real)
    requires 0.0 <= u < 1.0 && span < 0.0
    requires m == u * span
    ensures span < m <= 0.0
  {
    var w := -span;
    ProductNonNegative(u, w);
    ProductPositive(1.0 - u, w);
    assert m == -(u * w);
    assert m - span == (1.0 - u) * w;
  }

  /** `randFloat(low, high)`, i.e. `low + Math.random() * (high - low)`.
      It lands in [low, high) when the interval is proper, on `low` when it
      is a point, and in (high, low] when the bounds are swapped. */
  function RandFloat(low: real, high: real, u: Unit): (r: real)
    ensures low <= high ==> low <= r <= high
    ensures low < high ==> r < high
    ensures low == high ==> r == low
    ensures high < low ==> high < r <= low
  {
    low + Stretch(u, high - low)
  }

  /** `randInt(low, high)`, i.e. `low + Math.floor(Math.random() * (high - low + 1))`:
      an integer of the closed interval [low, high] when that interval is not empty. */
  function RandInt(low: int, high: int, u: Unit): (r: int)
    ensures low <= high ==> low <= r <= high
    ensures high == low - 1 ==> r == low
  {
    low + Stretch(u, (high - low + 1) as real).Floor
  }

  lemma ProductPositive(a: real, b: real)
    requires (0.0 < a && 0.0 < b) || (a < 0.0 && b < 0.0)
    ensures 0.0 < a * b
  {
  }

  lemma ProductNegative(a: real, b: real)
    requires (a < 0.0 && 0.0 < b) || (0.0 < a && b < 0.0)
    ensures a * b < 0.0
  {
    if a < 0.0 {
      ProductPositive(-a, b);
      assert a * b == -((-a) * b);
    } else {
      ProductPositive(a, -b);
      assert a * b == -(a * (-b));
    }
  }

  lemma ProductNonNegative(a: real, b: real)
    requires 0.0 <= a && 0.0 <= b
    ensures 0.0 <= a * b
  {
    if a != 0.0 && b != 0.0 {
      ProductPositive(a, b);
    }
  }
}
