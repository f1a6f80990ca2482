/** Real-valued 3-vectors and the two three.js `Vector3` operations whose
    behaviour the steering rule depends on: `normalize()` and
    `clampLength(0, max)`.

    Square root, cosine and sine are not computed: a `RealOps` value carries
    them as plain functions, and `Lawful` states the only facts the proofs use
    (a square root is non-negative and squares back to its argument; cosine and
    sine of one angle lie on the unit circle). */
module Vectors {
  import opened MathUtils

  datatype Vec3 = Vec3(x: real, y: real, z: real)

  const Zero := Vec3(0.0, 0.0, 0.0)

  function Add(a: Vec3, b: Vec3): Vec3 {
    Vec3(a.x + b.x, a.y + b.y, a.z + b.z)
  }

  function Scale(v: Vec3, k: real): Vec3 {
    Vec3(v.x * k, v.y * k, v.z * k)
  }

  /** The squared Euclidean length, `lengthSq()` in three.js. */
  function NormSq(v: Vec3): real {
    v.x * v.x + v.y * v.y + v.z * v.z
  }

  /** The transcendental functions the model leaves abstract. */
  datatype RealOps = RealOps(sqrt: real -> real, cos: real -> real, sin: real -> real)

  /** The unit vector at angle `a` in the XY plane, `(cos a, sin a, 0)`. */
  function Heading(ops: RealOps, a: real): Vec3 {
    Vec3(ops.cos(a), ops.sin(a), 0.0)
  }

  /** The square root of a non-negative `x` is non-negative and squares
      back to `x`. */
  ghost predicate SqrtAt(ops: RealOps, x: real) {
    0.0 <= x ==> 0.0 <= ops.sqrt(x) && ops.sqrt(x) * ops.sqrt(x) == x
  }

  /** Cosine and sine of `a` lie on the unit circle. */
  ghost predicate HeadingAt(ops: RealOps, a: real) {
    NormSq(Heading(ops, a)) == 1.0
  }

  /** The facts about the abstract functions that the proofs rely on. Each is
      instantiated only where a proof names `SqrtAt` or `HeadingAt`. */
  ghost predicate Lawful(ops: RealOps) {
    && (forall x :: SqrtAt(ops, x))
    && (forall a :: HeadingAt(ops, a))
  }

  /** `length()` in three.js. */
  function Length(ops: RealOps, v: Vec3): real {
    ops.sqrt(NormSq(v))
  }

  /** The divisor three.js writes as `length || 1`. */
  function LengthOrOne(ops: RealOps, v: Vec3): real {
    var len := Length(ops, v);
    if len == 0.0 then 1.0 else len
  }

  /** `normalize()`: divide by the length, or by 1 for a zero-length vector. */
  function Normalize(ops: RealOps, v: Vec3): (r: Vec3)
    ensures v == Zero ==> r == Zero
    ensures v.z == 0.0 ==> r.z == 0.0
  {
    Scale(v, 1.0 / LengthOrOne(ops, v))
  }

  /** `clampLength(0, max)`: divide by `length || 1`, then multiply by
      `Math.max(0, Math.min(max, length))`. A limit at or below zero collapses
      the vector, whatever its length. */
  function ClampLength(ops: RealOps, v: Vec3, max: real): (r: Vec3)
    ensures max <= 0.0 ==> r == Zero
    ensures v.z == 0.0 ==> r.z == 0.0
  {
    Scale(Scale(v, 1.0 / LengthOrOne(ops, v)), Max(0.0, Min(max, Length(ops, v))))
  }

  lemma SquareSign(a: real)
    ensures 0.0 <= a * a
    ensures a != 0.0 ==> 0.0 < a * a
  {
    if a != 0.0 {
      ProductPositive(a, a);
    }
  }

  lemma SquareStrictlyGrows(a: real, b: real)
    requires 0.0 <= a < b
    ensures a * a < b * b
  {
    assert b * b - a * a == (b - a) * (b + a);
    ProductPositive(b - a, b + a);
  }

  /** A squared length is never negative, and it is zero only for the zero vector. */
  lemma NormSqSign(v: Vec3)
    ensures 0.0 <= NormSq(v)
    ensures v != Zero ==> 0.0 < NormSq(v)
  {
    SquareSign(v.x);
    SquareSign(v.y);
    SquareSign(v.z);
    if v.x != 0.0 {
      calc {
        NormSq(v);
      >= v.x * v.x;
      > 0.0;
      }
    } else if v.y != 0.0 {
      calc {
        NormSq(v);
      >= v.y * v.y;
      > 0.0;
      }
    } else if v.z != 0.0 {
      calc {
        NormSq(v);
      >= v.z * v.z;
      > 0.0;
      }
    } else {
      assert v == Zero;
    }
  }

  lemma NormSqScale(v: Vec3, k: real)
    ensures NormSq(Scale(v, k)) == k * k * NormSq(v)
  {
    assert (v.x * k) * (v.x * k) == k * k * (v.x * v.x);
    assert (v.y * k) * (v.y * k) == k * k * (v.y * v.y);
    assert (v.z * k) * (v.z * k) == k * k * (v.z * v.z);
  }

  lemma ScaleScale(v: Vec3, a: real, b: real)
    ensures Scale(Scale(v, a), b) == Scale(v, a * b)
  {
    assert (v.x * a) * b == v.x * (a * b);
    assert (v.y * a) * b == v.y * (a * b);
    assert (v.z * a) * b == v.z * (a * b);
  }

  /** The abstract square root is the principal one: it recovers a
      non-negative number from its square. */
  lemma SqrtOfSquare(ops: RealOps, a: real)
    requires Lawful(ops)
    requires 0.0 <= a
    ensures ops.sqrt(a * a) == a
  {
    assert SqrtAt(ops, a * a);
    var s := ops.sqrt(a * a);
    SquareSign(a);
    assert 0.0 <= s && s * s == a * a;
    if s < a {
      SquareStrictlyGrows(s, a);
    } else if a < s {
      SquareStrictlyGrows(a, s);
    }
  }

  /** A square root of something at most h*h is at most h. */
  lemma SqrtAtMost(ops: RealOps, x: real, h: real)
    requires Lawful(ops)
    requires 0.0 <= x <= h * h
    requires 0.0 <= h
    ensures ops.sqrt(x) <= h
  {
    assert SqrtAt(ops, x);
    var s := ops.sqrt(x);
    assert 0.0 <= s && s * s == x;
    if s > h {
      SquareStrictlyGrows(h, s);
    }
  }

  /** The length is a non-negative number whose square is the squared
      length, and it is zero exactly for the zero vector. */
  lemma LengthSign(ops: RealOps, v: Vec3)
    requires Lawful(ops)
    ensures 0.0 <= Length(ops, v)
    ensures Length(ops, v) * Length(ops, v) == NormSq(v)
    ensures v == Zero ==> Length(ops, v) == 0.0
    ensures v != Zero ==> 0.0 < Length(ops, v)
  {
    NormSqSign(v);
    var len := Length(ops, v);
    assert SqrtAt(ops, NormSq(v));
    assert 0.0 <= len && len * len == NormSq(v);
    if v == Zero {
      assert NormSq(v) == 0.0 * 0.0;
      SqrtOfSquare(ops, 0.0);
    } else {
      ZeroSquare(len);
    }
  }

  lemma ZeroSquare(a: real)
    ensures a == 0.0 ==> a * a == 0.0
  {
  }

  /** Normalising yields a unit vector pointing the same way, and the zero
      vector yields itself rather than a division by zero. */
  lemma NormalizeUnit(ops: RealOps, v: Vec3)
    requires Lawful(ops)
    ensures v == Zero ==> Normalize(ops, v) == Zero
    ensures v != Zero ==> 0.0 < Length(ops, v)
                          && Normalize(ops, v) == Scale(v, 1.0 / Length(ops, v))
                          && NormSq(Normalize(ops, v)) == 1.0
  {
    LengthSign(ops, v);
    if v != Zero {
      var len := Length(ops, v);
      NormSqScale(v, 1.0 / len);
      calc {
        NormSq(Normalize(ops, v));
        (1.0 / len) * (1.0 / len) * NormSq(v);
        (1.0 / len) * (1.0 / len) * (len * len);
        1.0;
      }
    }
  }

  /** Normalising a unit vector stretched by a positive factor gives the
      unit vector back. */
  lemma NormalizeScaled(ops: RealOps, h: Vec3, k: real)
    requires Lawful(ops)
    requires NormSq(h) == 1.0
    requires 0.0 < k
    ensures Normalize(ops, Scale(h, k)) == h
  {
    var v := Scale(h, k);
    NormSqScale(h, k);
    assert NormSq(v) == k * k;
    SqrtOfSquare(ops, k);
    assert LengthOrOne(ops, v) == k;
    ScaleScale(h, k, 1.0 / k);
    assert k * (1.0 / k) == 1.0;
  }

  /** A vector no longer than the limit comes back unchanged. */
  lemma ClampKeepsShort(ops: RealOps, v: Vec3, max: real)
    requires Lawful(ops)
    requires Length(ops, v) <= max
    ensures ClampLength(ops, v, max) == v
  {
    LengthSign(ops, v);
    var len := Length(ops, v);
    if v != Zero {
      assert Max(0.0, Min(max, len)) == len;
      ScaleScale(v, 1.0 / len, len);
      assert (1.0 / len) * len == 1.0;
    }
  }

  /** A vector longer than a non-negative limit is rescaled, along its own
      direction, to exactly that limit. */
  lemma ClampScalesLong(ops: RealOps, v: Vec3, max: real)
    requires Lawful(ops)
    requires 0.0 <= max < Length(ops, v)
    ensures ClampLength(ops, v, max) == Scale(v, max / Length(ops, v))
    ensures NormSq(ClampLength(ops, v, max)) == max * max
    ensures Length(ops, ClampLength(ops, v, max)) == max
  {
    ClampLongForm(ops, v, max);
    LengthSign(ops, v);
    RescaledNormSq(v, Length(ops, v), max);
    SqrtOfSquare(ops, max);
  }

  /** Above the limit, the clamp rescales by `max / length`. */
  lemma ClampLongForm(ops: RealOps, v: Vec3, max: real)
    requires 0.0 <= max < Length(ops, v)
    ensures ClampLength(ops, v, max) == Scale(v, max / Length(ops, v))
  {
    var len := Length(ops, v);
    assert LengthOrOne(ops, v) == len;
    assert Max(0.0, Min(max, len)) == max;
    ScaleScale(v, 1.0 / len, max);
    assert (1.0 / len) * max == max / len;
  }

  /** Rescaling a vector of length `len` by `max / len` gives length `max`. */
  lemma RescaledNormSq(v: Vec3, len: real, max: real)
    requires 0.0 < len && len * len == NormSq(v)
    ensures NormSq(Scale(v, max / len)) == max * max
  {
    NormSqScale(v, max / len);
    calc {
      NormSq(Scale(v, max / len));
      (max / len) * (max / len) * NormSq(v);
      (max / len) * (max / len) * (len * len);
      ((max / len) * len) * ((max / len) * len);
      { assert (max / len) * len == max; }
      max * max;
    }
  }

  lemma ClampSquaredBound(ops: RealOps, v: Vec3, max: real)
    requires Lawful(ops)
    ensures NormSq(ClampLength(ops, v, max)) <= NormSq(v)
    ensures NormSq(ClampLength(ops, v, max)) <= max * max
  {
    LengthSign(ops, v);
    var len := Length(ops, v);
    if max <= 0.0 {
      ClampCollapses(ops, v, max);
    } else if len <= max {
      ClampKeepsShort(ops, v, max);
      SquareStrictlyGrowsOrEqual(len, max);
    } else {
      ClampScalesLong(ops, v, max);
      SquareStrictlyGrows(max, len);
      calc {
        NormSq(ClampLength(ops, v, max));
        max * max;
      < len * len;
        NormSq(v);
      }
    }
  }

  lemma ClampCollapses(ops: RealOps, v: Vec3, max: real)
    requires Lawful(ops)
    requires max <= 0.0
    ensures NormSq(ClampLength(ops, v, max)) == 0.0 <= NormSq(v)
    ensures 0.0 <= max * max
  {
    LengthSign(ops, v);
    NormSqSign(v);
    SquareSign(max);
  }

  /** Whatever the limit, the clamp never lengthens a vector and never
      leaves it longer than the limit. */
  lemma ClampLengthBound(ops: RealOps, v: Vec3, max: real)
    requires Lawful(ops)
    ensures NormSq(ClampLength(ops, v, max)) <= NormSq(v)
    ensures NormSq(ClampLength(ops, v, max)) <= max * max
    ensures 0.0 <= max ==> Length(ops, ClampLength(ops, v, max)) <= max
  {
    var r := ClampLength(ops, v, max);
    ClampSquaredBound(ops, v, max);
    if 0.0 <= max {
      NormSqSign(r);
      SqrtAtMost(ops, NormSq(r), max);
    }
  }

  /** Cosine and sine of one angle both lie in [-1, 1]. */
  lemma TrigBounded(ops: RealOps, a: real)
    requires Lawful(ops)
    ensures -1.0 <= Heading(ops, a).x <= 1.0
    ensures -1.0 <= Heading(ops, a).y <= 1.0
  {
    assert HeadingAt(ops, a);
    var c, s := Heading(ops, a).x, Heading(ops, a).y;
    assert c * c + s * s + 0.0 * 0.0 == 1.0;
    SquareSign(c);
    SquareSign(s);
    if 1.0 < c {
      SquareStrictlyGrows(1.0, c);
    } else if c < -1.0 {
      SquareStrictlyGrows(1.0, -c);
    }
    if 1.0 < s {
      SquareStrictlyGrows(1.0, s);
    } else if s < -1.0 {
      SquareStrictlyGrows(1.0, -s);
    }
  }

  lemma SquareStrictlyGrowsOrEqual(a: real, b: real)
    requires 0.0 <= a <= b
    ensures a * a <= b * b
  {
    if a < b {
      SquareStrictlyGrows(a, b);
    }
  }
}
