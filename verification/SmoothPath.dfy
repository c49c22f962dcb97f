/**
The usage chart's curve: a monotone cubic through the points, with tangents
limited in place as Fritsch and Carlson describe. Numbers are reals and the
square root is a parameter.
*/
module SmoothPath {
  datatype Point = Point(x: real, y: real)

  /** One curve piece between two points, with its two control points. */
  datatype Cubic = Cubic(p0: Point, c1: Point, c2: Point, p1: Point)

  predicate Increasing(points: seq<Point>) {
    forall i :: 0 <= i < |points| - 1 ==> points[i].x < points[i + 1].x
  }

  // ---- What the curve must not do ------------------------------------------------

  /** The point a fraction `t` of the way from `x` to `y`. */
  function Mix(t: real, x: real, y: real): real {
    (1.0 - t) * x + t * y
  }

  /** The Bézier curve of a list of controls, by de Casteljau's construction. */
  function Curve(controls: seq<real>, t: real): real
    requires |controls| >= 1
  {
    if |controls| == 1 then controls[0]
    else Mix(t, Curve(controls[..|controls| - 1], t), Curve(controls[1..], t))
  }

  function X(k: Cubic, t: real): real {
    Curve([k.p0.x, k.c1.x, k.c2.x, k.p1.x], t)
  }

  function Y(k: Cubic, t: real): real {
    Curve([k.p0.y, k.c1.y, k.c2.y, k.p1.y], t)
  }

  predicate Between(low: real, v: real, high: real) {
    low <= v <= high || high <= v <= low
  }

  /** `v` is no nearer the start of the way from `from` to `to` than `u`, and neither leaves it. */
  predicate OnTheWay(from: real, to: real, u: real, v: real) {
    (from <= to ==> from <= u <= v <= to) && (from >= to ==> from >= u >= v >= to)
  }

  predicate Even(k: Cubic, t: real) {
    X(k, t) == k.p0.x + t * (k.p1.x - k.p0.x)
  }

  predicate Rises(k: Cubic, u: real, v: real) {
    OnTheWay(k.p0.y, k.p1.y, Y(k, u), Y(k, v))
  }

  /**
  The piece runs evenly in x; in y it only ever moves towards its end point,
  and neither the curve nor its controls leave the range of the two end points.
  */
  ghost predicate Monotone(k: Cubic) {
    (forall t :: Even(k, t)) &&
    (forall u, v :: 0.0 <= u <= v <= 1.0 ==> Rises(k, u, v)) &&
    Between(k.p0.y, k.c1.y, k.p1.y) && Between(k.p0.y, k.c2.y, k.p1.y)
  }

  // ---- Products of reals ------------------------------------------------------------------

  function Square(x: real): real {
    x * x
  }

  ghost predicate IsSqrt(sqrt: real -> real) {
    forall x :: x >= 0.0 ==> sqrt(x) >= 0.0 && Square(sqrt(x)) == x
  }

  lemma MulMonotone(x: real, y: real, z: real)
    requires x <= y && z >= 0.0
    ensures x * z <= y * z
  {
  }

  lemma Nonnegative(x: real, y: real)
    requires x >= 0.0 && y >= 0.0
    ensures x * y >= 0.0
  {
  }

  lemma Positive(x: real, y: real)
    requires x > 0.0 && y > 0.0
    ensures x * y > 0.0
  {
  }

  lemma SquareNonnegative(x: real)
    ensures Square(x) >= 0.0
  {
  }

  lemma NonnegativeProduct(x: real, y: real) returns (z: real)
    requires x >= 0.0 && y >= 0.0
    ensures z == x * y && z >= 0.0
  {
    z := x * y;
    Nonnegative(x, y);
  }

  lemma PositiveProduct(x: real, y: real) returns (z: real)
    requires x > 0.0 && y > 0.0
    ensures z == x * y && z > 0.0
  {
    z := x * y;
    Positive(x, y);
  }

  lemma SquarePositive(x: real)
    requires x != 0.0
    ensures Square(x) > 0.0
  {
    if x > 0.0 {
      var z := PositiveProduct(x, x);
    } else {
      var z := PositiveProduct(-x, -x);
      assert z == x * x;
    }
  }

  lemma SignOfProduct(q: real, a: real)
    requires q > 0.0
    ensures q * a >= 0.0 <==> a >= 0.0
  {
    if a >= 0.0 {
      Nonnegative(q, a);
    } else {
      Positive(q, -a);
      assert q * a == -(q * -a);
    }
  }

  lemma ProductSquare(k: real, a: real)
    ensures Square(k * a) == Square(k) * Square(a)
  {
  }

  lemma UnitSquare(k: real)
    requires 0.0 <= k <= 1.0
    ensures Square(k) <= 1.0
  {
    MulMonotone(k, 1.0, k);
    assert k * k <= 1.0 * k == k;
  }

  lemma SquareMonotone(x: real, y: real)
    requires 0.0 <= x <= y
    ensures Square(x) <= Square(y)
  {
    MulMonotone(x, y, x);
    MulMonotone(x, y, y);
    assert x * y == y * x;
  }

  lemma ScaleSquare(a: real, k: real)
    requires 0.0 <= k <= 1.0
    ensures Square(k * a) <= Square(a)
  {
    ProductSquare(k, a);
    UnitSquare(k);
    SquareNonnegative(a);
    MulMonotone(Square(k), 1.0, Square(a));
  }

  // ---- Tangents ------------------------------------------------------------------------

  /** A tangent does not point against a slope. */
  predicate Along(s: real, m: real) {
    s * m >= 0.0
  }

  /** Tangents `m`, `n` of a segment with slope `s`: along it, and together at most three times as steep. */
  predicate Limited(s: real, m: real, n: real) {
    Along(s, m) && Along(s, n) && Square(m) + Square(n) <= 9.0 * Square(s)
  }

  /** The positive quarter of the disc of radius 3, where the ratios of tangents to slope must lie. */
  predicate InDisc(a: real, b: real) {
    a >= 0.0 && b >= 0.0 && Square(a) + Square(b) <= 9.0
  }

  lemma ShrinkKeepsAlong(s: real, m: real, k: real)
    requires Along(s, m) && 0.0 <= k
    ensures Along(s, k * m)
  {
    Nonnegative(k, s * m);
    assert s * (k * m) == k * (s * m);
  }

  /** Shrinking a tangent towards zero never breaks a segment that was already limited. */
  lemma ShrinkKeepsLimited(s: real, m: real, n: real, k: real)
    requires Limited(s, m, n) && 0.0 <= k <= 1.0
    ensures Limited(s, m, k * n)
  {
    ShrinkKeepsAlong(s, n, k);
    ScaleSquare(n, k);
  }

  lemma SumOfSquares(m: real, n: real)
    requires Square(m) + Square(n) <= 0.0
    ensures m == 0.0 && n == 0.0
  {
    SquareNonnegative(m);
    SquareNonnegative(n);
    if m != 0.0 {
      SquarePositive(m);
    }
    if n != 0.0 {
      SquarePositive(n);
    }
  }

  lemma ScaledSum(a: real, b: real, s: real)
    ensures 9.0 * Square(s) - (Square(a * s) + Square(b * s)) == Square(s) * (9.0 - (Square(a) + Square(b)))
  {
    ProductSquare(a, s);
    ProductSquare(b, s);
  }

  lemma AlongRatio(s: real, a: real)
    requires s != 0.0
    ensures Along(s, a * s) <==> a >= 0.0
  {
    SquarePositive(s);
    SignOfProduct(Square(s), a);
    assert s * (a * s) == Square(s) * a;
  }

  /** In ratios: for a rising or falling segment, limited means inside the disc. */
  lemma RatiosLimited(s: real, a: real, b: real)
    requires s != 0.0
    ensures Limited(s, a * s, b * s) <==> InDisc(a, b)
  {
    AlongRatio(s, a);
    AlongRatio(s, b);
    SquarePositive(s);
    ScaledSum(a, b, s);
    SignOfProduct(Square(s), 9.0 - (Square(a) + Square(b)));
  }

  lemma LongerThanThree(root: real)
    requires root >= 0.0 && Square(root) > 9.0
    ensures root > 3.0
  {
    if root <= 3.0 {
      SquareMonotone(root, 3.0);
    }
  }

  lemma Distribute(t: real, x: real, y: real)
    ensures t * (x + y) == t * x + t * y
  {
  }

  /** Scaling both ratios by 3 over the length of their vector puts them on the circle. */
  lemma LimitReaches(a: real, b: real, root: real, t: real)
    requires a >= 0.0 && b >= 0.0 && Square(a) + Square(b) > 9.0
    requires root >= 0.0 && Square(root) == Square(a) + Square(b)
    requires root > 0.0 ==> t == 3.0 / root
    ensures root > 3.0 && 0.0 <= t <= 1.0
    ensures InDisc(t * a, t * b) && Square(t * a) + Square(t * b) == 9.0
  {
    LongerThanThree(root);
    assert t * root == 3.0;
    ProductSquare(t, a);
    ProductSquare(t, b);
    ProductSquare(t, root);
    Nonnegative(t, a);
    Nonnegative(t, b);
    assert Square(3.0) == 9.0;
    Distribute(Square(t), Square(a), Square(b));
  }

  // ---- One piece ---------------------------------------------------------------------------

  // The unit piece by powers of t, and its derivative.
  function Powers(c1: real, c2: real, c3: real, t: real): real {
    c1 * t + c2 * (t * t) + c3 * (t * t * t)
  }

  /** Ordinate of the piece from 0 to 1 with end slopes `a` and `b`, and its derivative. */
  function P(a: real, b: real, t: real): real {
    Powers(a, 3.0 - 2.0 * a - b, a + b - 2.0, t)
  }

  function Quadratic(a: real, c: real, b: real, u: real, t: real): real {
    a * (u * u) + c * (u * t) + b * (t * t)
  }

  function Q(a: real, b: real, t: real): real {
    Quadratic(a, 2.0 * (3.0 - a - b), b, 1.0 - t, t)
  }

  lemma SquareBelow(d: real, most: real)
    requires 0.0 <= d <= most
    ensures Square(d) <= most * d
  {
    MulMonotone(d, most, d);
  }

  lemma HalfTheRest(excess: real, d: real, sum: real, squares: real, product: real)
    requires excess <= 6.0 * d && sum == excess + 6.0 * d + 9.0
    requires sum == squares + 2.0 * product && squares <= 9.0
    ensures excess <= product
  {
  }

  lemma SquareOfSum(a: real, b: real)
    ensures Square(a + b) == Square(a) + 2.0 * (a * b) + Square(b)
  {
  }

  lemma LongSide(a: real)
    requires a > 3.0
    ensures Square(a) > 9.0
  {
    Positive(a - 3.0, a + 3.0);
    assert (a - 3.0) * (a + 3.0) == Square(a) - 9.0;
  }

  lemma SumBelow(a: real, b: real)
    requires InDisc(a, b)
    ensures a <= 3.0 && b <= 3.0
  {
    SquareNonnegative(a);
    SquareNonnegative(b);
    if a > 3.0 {
      LongSide(a);
    }
    if b > 3.0 {
      LongSide(b);
    }
  }

  /** Inside the disc the excess of the ratios over 3 is small. */
  lemma DiscExcess(a: real, b: real, d: real)
    requires InDisc(a, b) && d >= 0.0 && a + b == d + 3.0
    ensures Square(d) <= a * b
  {
    SumBelow(a, b);
    SquareBelow(d, 6.0);
    SquareOfSum(d, 3.0);
    SquareOfSum(a, b);
    HalfTheRest(Square(d), d, Square(a + b), Square(a) + Square(b), a * b);
  }

  lemma NonnegativeTerms(a: real, c: real, b: real, u: real, t: real)
    requires a >= 0.0 && b >= 0.0 && c >= 0.0 && u >= 0.0 && t >= 0.0
    ensures Quadratic(a, c, b, u, t) >= 0.0
  {
    SquareNonnegative(u);
    Nonnegative(u, t);
    SquareNonnegative(t);
    Nonnegative(a, Square(u));
    Nonnegative(c, u * t);
    Nonnegative(b, Square(t));
  }

  lemma CompleteSquare(a: real, b: real, k: real, u: real, t: real)
    ensures a * Quadratic(a, -2.0 * k, b, u, t) == Square(a * u - k * t) + (a * b - Square(k)) * Square(t)
  {
  }

  lemma Discriminant(a: real, b: real, k: real, u: real, t: real)
    requires a >= 0.0 && b >= 0.0 && k >= 0.0 && Square(k) <= a * b
    ensures Quadratic(a, -2.0 * k, b, u, t) >= 0.0
  {
    SquareNonnegative(t);
    if a == 0.0 {
      SumOfSquares(k, 0.0);
      Nonnegative(b, Square(t));
    } else {
      CompleteSquare(a, b, k, u, t);
      SquareNonnegative(a * u - k * t);
      Nonnegative(a * b - Square(k), Square(t));
      SignOfProduct(a, Quadratic(a, -2.0 * k, b, u, t));
    }
  }

  /** The derivative never turns. */
  lemma NoTurn(a: real, b: real, t: real)
    requires InDisc(a, b) && 0.0 <= t <= 1.0
    ensures Q(a, b, t) >= 0.0
  {
    var c := 2.0 * (3.0 - a - b);
    if c >= 0.0 {
      NonnegativeTerms(a, c, b, 1.0 - t, t);
    } else {
      var k := a + b - 3.0;
      DiscExcess(a, b, k);
      Discriminant(a, b, k, 1.0 - t, t);
      assert c == -2.0 * k;
    }
  }

  lemma SteepPart(a: real, t: real)
    requires a > 3.0 && t > 0.5
    ensures 2.0 * (3.0 - a) * t < 3.0 - a
  {
    var d, e := a - 3.0, t - 0.5;
    var product := PositiveProduct(d, e);
    assert 2.0 * (3.0 - a) * t == -d - 2.0 * product;
  }

  lemma NegativeProduct(u: real, v: real)
    requires u > 0.0 && v < 0.0
    ensures u * v < 0.0
  {
    Positive(u, -v);
  }

  /** The disc is no smaller than it need be: with one end flat, any end slope over three makes the piece turn back. */
  lemma RadiusIsSharp(a: real) returns (t: real)
    requires a > 3.0
    ensures InDisc(3.0, 0.0) && InDisc(0.0, 3.0) && !InDisc(a, 0.0)
    ensures 0.0 < t < 1.0 && Q(a, 0.0, t) < 0.0
  {
    var u := (a - 3.0) / (2.0 * a);
    assert a * u == (a - 3.0) / 2.0;
    assert 0.0 < u < 0.5;
    t := 1.0 - u;
    Positive(a - 3.0, a + 3.0);
    assert Square(a) == (a - 3.0) * (a + 3.0) + 9.0;
    var v := a * u + 2.0 * (3.0 - a) * t;
    SteepPart(a, t);
    NegativeProduct(u, v);
    assert Q(a, 0.0, t) == u * v;
  }

  // ---- From the derivative to the curve ----------------------------------------------------

  function Bernstein(a: real, b: real, c: real, d: real, t: real): real {
    (1.0 - t) * (1.0 - t) * (1.0 - t) * a + 3.0 * (1.0 - t) * (1.0 - t) * t * b + 3.0 * (1.0 - t) * t * t * c + t * t * t * d
  }

  lemma CurveOfTwo(a: real, b: real, t: real)
    ensures Curve([a, b], t) == Mix(t, a, b)
  {
    assert [a, b][..1] == [a] && [a, b][1..] == [b];
  }

  lemma CurveOfThree(a: real, b: real, c: real, t: real)
    ensures Curve([a, b, c], t) == Mix(t, Mix(t, a, b), Mix(t, b, c))
  {
    CurveOfTwo(a, b, t);
    CurveOfTwo(b, c, t);
    assert [a, b, c][..2] == [a, b] && [a, b, c][1..] == [b, c];
  }

  lemma CurveOfFour(a: real, b: real, c: real, d: real, t: real)
    ensures Curve([a, b, c, d], t) == Mix(t, Mix(t, Mix(t, a, b), Mix(t, b, c)), Mix(t, Mix(t, b, c), Mix(t, c, d)))
  {
    CurveOfThree(a, b, c, t);
    CurveOfThree(b, c, d, t);
    assert [a, b, c, d][..3] == [a, b, c] && [a, b, c, d][1..] == [b, c, d];
  }

  function Bernstein2(a: real, b: real, c: real, t: real): real {
    (1.0 - t) * (1.0 - t) * a + 2.0 * (1.0 - t) * t * b + t * t * c
  }

  lemma MixOfTwo(a: real, b: real, c: real, t: real)
    ensures Mix(t, Mix(t, a, b), Mix(t, b, c)) == Bernstein2(a, b, c, t)
  {
  }

  lemma Raised(u: real, t: real, a: real, b: real, c: real, d: real)
    ensures u * (u * u * a + 2.0 * u * t * b + t * t * c) + t * (u * u * b + 2.0 * u * t * c + t * t * d) ==
            u * u * u * a + 3.0 * u * u * t * b + 3.0 * u * t * t * c + t * t * t * d
  {
  }

  lemma MixOfThree(a: real, b: real, c: real, d: real, t: real)
    ensures Mix(t, Bernstein2(a, b, c, t), Bernstein2(b, c, d, t)) == Bernstein(a, b, c, d, t)
  {
    Raised(1.0 - t, t, a, b, c, d);
  }

  lemma CurveIsBernstein(a: real, b: real, c: real, d: real, t: real)
    ensures Curve([a, b, c, d], t) == Bernstein(a, b, c, d, t)
  {
    CurveOfFour(a, b, c, d, t);
    MixOfTwo(a, b, c, t);
    MixOfTwo(b, c, d, t);
    MixOfThree(a, b, c, d, t);
  }

  function PowersSlope(c1: real, c2: real, c3: real, t: real): real {
    c1 + 2.0 * c2 * t + 3.0 * c3 * (t * t)
  }

  lemma SlopeByPowers(a: real, b: real, t: real)
    ensures Q(a, b, t) == PowersSlope(a, 3.0 - 2.0 * a - b, a + b - 2.0, t)
  {
  }

  /** Simpson's rule is exact for a quadratic, so the curve's rise is a mean of its derivative. */
  lemma Simpson(c1: real, c2: real, c3: real, u: real, v: real)
    ensures 6.0 * (Powers(c1, c2, c3, v) - Powers(c1, c2, c3, u)) ==
            (v - u) * (PowersSlope(c1, c2, c3, u) + 4.0 * PowersSlope(c1, c2, c3, (u + v) / 2.0) + PowersSlope(c1, c2, c3, v))
  {
  }

  lemma RiseOf(c1: real, c2: real, c3: real, u: real, v: real)
    requires u <= v
    requires PowersSlope(c1, c2, c3, u) >= 0.0 && PowersSlope(c1, c2, c3, v) >= 0.0
    requires PowersSlope(c1, c2, c3, (u + v) / 2.0) >= 0.0
    ensures Powers(c1, c2, c3, u) <= Powers(c1, c2, c3, v)
  {
    Simpson(c1, c2, c3, u, v);
    Nonnegative(v - u, PowersSlope(c1, c2, c3, u) + 4.0 * PowersSlope(c1, c2, c3, (u + v) / 2.0) + PowersSlope(c1, c2, c3, v));
  }

  lemma UnitMonotone(a: real, b: real, u: real, v: real)
    requires InDisc(a, b) && 0.0 <= u <= v <= 1.0
    ensures P(a, b, u) <= P(a, b, v)
  {
    var w := (u + v) / 2.0;
    NoTurn(a, b, u);
    NoTurn(a, b, w);
    NoTurn(a, b, v);
    var c2, c3 := 3.0 - 2.0 * a - b, a + b - 2.0;
    SlopeByPowers(a, b, u);
    SlopeByPowers(a, b, w);
    SlopeByPowers(a, b, v);
    RiseOf(a, c2, c3, u, v);
  }

  lemma UnitEnds(a: real, b: real)
    ensures P(a, b, 0.0) == 0.0 && P(a, b, 1.0) == 1.0
  {
  }

  lemma BernsteinStretch(from: real, to: real, a: real, b: real, c: real, d: real, t: real)
    requires c == from + (to - from) * (a / 3.0) && d == to - (to - from) * (b / 3.0)
    ensures Bernstein(from, c, d, to, t) == from + (to - from) * P(a, b, t)
  {
  }

  /** `y` lies a fraction `f` of the way from `from` to `to`. */
  predicate PartWay(from: real, to: real, f: real, y: real) {
    y == from + (to - from) * f
  }

  lemma Stretch(from: real, to: real, a: real, b: real, c: real, d: real, t: real)
    requires c == from + (to - from) * (a / 3.0) && d == to - (to - from) * (b / 3.0)
    ensures PartWay(from, to, P(a, b, t), Curve([from, c, d, to], t))
  {
    CurveIsBernstein(from, c, d, to, t);
    BernsteinStretch(from, to, a, b, c, d, t);
  }

  lemma BernsteinEven(x0: real, h: real, t: real)
    ensures Bernstein(x0, x0 + h, x0 + 2.0 * h, x0 + 3.0 * h, t) == x0 + t * (3.0 * h)
  {
  }

  lemma EvenX(x0: real, x1: real, h: real, t: real)
    requires 3.0 * h == x1 - x0
    ensures Curve([x0, x0 + h, x1 - h, x1], t) == x0 + t * (x1 - x0)
  {
    CurveIsBernstein(x0, x0 + h, x1 - h, x1, t);
    BernsteinEven(x0, h, t);
    assert x1 - h == x0 + 2.0 * h && x1 == x0 + 3.0 * h;
  }

  lemma UnitRange(a: real, b: real, u: real, v: real)
    requires InDisc(a, b) && 0.0 <= u <= v <= 1.0
    ensures 0.0 <= P(a, b, u) <= P(a, b, v) <= 1.0
  {
    UnitEnds(a, b);
    UnitMonotone(a, b, 0.0, u);
    UnitMonotone(a, b, u, v);
    UnitMonotone(a, b, v, 1.0);
  }

  lemma Rising(from: real, to: real, f: real, g: real, u: real, v: real)
    requires from <= to && 0.0 <= f <= g <= 1.0 && PartWay(from, to, f, u) && PartWay(from, to, g, v)
    ensures from <= u <= v <= to
  {
    var x := NonnegativeProduct(to - from, f);
    var y := NonnegativeProduct(to - from, g - f);
    var z := NonnegativeProduct(to - from, 1.0 - g);
    assert u == from + x && v == u + y && to == v + z;
  }

  lemma Mirrored(from: real, to: real, f: real, y: real)
    requires PartWay(from, to, f, y)
    ensures PartWay(-from, -to, f, -y)
  {
  }

  lemma Interpolates(from: real, to: real, f: real, g: real, u: real, v: real)
    requires 0.0 <= f <= g <= 1.0 && PartWay(from, to, f, u) && PartWay(from, to, g, v)
    ensures OnTheWay(from, to, u, v)
  {
    if from <= to {
      Rising(from, to, f, g, u, v);
    } else {
      Mirrored(from, to, f, u);
      Mirrored(from, to, g, v);
      Rising(-from, -to, f, g, -u, -v);
    }
  }

  lemma CurveOnTheWay(from: real, to: real, a: real, b: real, c: real, d: real, u: real, v: real)
    requires c == from + (to - from) * (a / 3.0) && d == to - (to - from) * (b / 3.0)
    requires InDisc(a, b) && 0.0 <= u <= v <= 1.0
    ensures OnTheWay(from, to, Curve([from, c, d, to], u), Curve([from, c, d, to], v))
  {
    UnitRange(a, b, u, v);
    Stretch(from, to, a, b, c, d, u);
    Stretch(from, to, a, b, c, d, v);
    Interpolates(from, to, P(a, b, u), P(a, b, v), Curve([from, c, d, to], u), Curve([from, c, d, to], v));
  }

  lemma ControlsBetween(from: real, to: real, a: real, b: real, c: real, d: real)
    requires InDisc(a, b)
    requires c == from + (to - from) * (a / 3.0) && d == to - (to - from) * (b / 3.0)
    ensures Between(from, c, to) && Between(from, d, to)
  {
    SumBelow(a, b);
    Interpolates(from, to, a / 3.0, a / 3.0, c, c);
    Interpolates(from, to, 1.0 - b / 3.0, 1.0 - b / 3.0, d, d);
  }

  function Slope(p: Point, q: Point): real
    requires p.x < q.x
  {
    (q.y - p.y) / (q.x - p.x)
  }

  function MakePiece(p: Point, q: Point, m: real, n: real): Cubic {
    var h := (q.x - p.x) / 3.0;
    Cubic(p, Point(p.x + h, p.y + m * h), Point(q.x - h, q.y - n * h), q)
  }

  /** The ratios of limited tangents to their slope; a flat segment may take zero. */
  lemma Ratios(s: real, m: real, n: real) returns (a: real, b: real)
    requires Limited(s, m, n)
    ensures InDisc(a, b) && m == a * s && n == b * s
  {
    if s == 0.0 {
      SumOfSquares(m, n);
      a, b := 0.0, 0.0;
    } else {
      a, b := m / s, n / s;
      assert m == a * s && n == b * s;
      RatiosLimited(s, a, b);
    }
  }

  lemma ControlOffset(s: real, w: real, rise: real, a: real)
    requires s * w == rise
    ensures (a * s) * (w / 3.0) == rise * (a / 3.0)
  {
    assert (a * s) * (w / 3.0) == (s * w) * (a / 3.0);
  }

  /** The controls of a piece whose end slopes are `a` and `b` times its own. */
  predicate Shaped(k: Cubic, a: real, b: real) {
    var rise, h := k.p1.y - k.p0.y, (k.p1.x - k.p0.x) / 3.0;
    k.c1 == Point(k.p0.x + h, k.p0.y + rise * (a / 3.0)) &&
    k.c2 == Point(k.p1.x - h, k.p1.y - rise * (b / 3.0))
  }

  lemma PieceShape(p: Point, q: Point, a: real, b: real, m: real, n: real)
    requires p.x < q.x && m == a * Slope(p, q) && n == b * Slope(p, q)
    ensures Shaped(MakePiece(p, q, m, n), a, b)
  {
    var s, w, rise := Slope(p, q), q.x - p.x, q.y - p.y;
    assert s * w == rise;
    ControlOffset(s, w, rise, a);
    ControlOffset(s, w, rise, b);
  }

  lemma ShapedEven(k: Cubic, a: real, b: real, t: real)
    requires Shaped(k, a, b)
    ensures Even(k, t)
  {
    EvenX(k.p0.x, k.p1.x, (k.p1.x - k.p0.x) / 3.0, t);
  }

  lemma ShapedRises(k: Cubic, a: real, b: real, u: real, v: real)
    requires Shaped(k, a, b) && InDisc(a, b) && 0.0 <= u <= v <= 1.0
    ensures Rises(k, u, v)
  {
    CurveOnTheWay(k.p0.y, k.p1.y, a, b, k.c1.y, k.c2.y, u, v);
  }

  lemma ShapedIsMonotone(k: Cubic, a: real, b: real)
    requires Shaped(k, a, b) && InDisc(a, b)
    ensures Monotone(k)
  {
    forall t ensures Even(k, t) {
      ShapedEven(k, a, b, t);
    }
    forall u, v | 0.0 <= u <= v <= 1.0 ensures Rises(k, u, v) {
      ShapedRises(k, a, b, u, v);
    }
    ControlsBetween(k.p0.y, k.p1.y, a, b, k.c1.y, k.c2.y);
  }

  /** A segment with limited tangents is monotone and overshoots neither end. */
  lemma LimitedIsMonotone(p: Point, q: Point, m: real, n: real)
    requires p.x < q.x && Limited(Slope(p, q), m, n)
    ensures Monotone(MakePiece(p, q, m, n))
  {
    var a, b := Ratios(Slope(p, q), m, n);
    PieceShape(p, q, a, b, m, n);
    ShapedIsMonotone(MakePiece(p, q, m, n), a, b);
  }

  // ---- The program ---------------------------------------------------------------------------

  function Slopes(points: seq<Point>): (r: seq<real>)
    requires Increasing(points) && |points| >= 1
    ensures |r| == |points| - 1
  {
    seq(|points| - 1, i requires 0 <= i < |points| - 1 => Slope(points[i], points[i + 1]))
  }

  /** No tangent points against the slope on either side of it. */
  ghost predicate AllAlong(slopes: seq<real>, tangents: seq<real>)
    requires |tangents| == |slopes| + 1
  {
    forall k :: 0 <= k < |slopes| ==> Along(slopes[k], tangents[k]) && Along(slopes[k], tangents[k + 1])
  }

  ghost predicate LimitedUpTo(slopes: seq<real>, tangents: seq<real>, n: nat)
    requires |tangents| == |slopes| + 1 && n <= |slopes|
  {
    forall k :: 0 <= k < n ==> Limited(slopes[k], tangents[k], tangents[k + 1])
  }

  function FirstTangent(slopes: seq<real>, i: nat): real
    requires i <= |slopes| && |slopes| >= 1
  {
    if i == 0 then slopes[0]
    else if i == |slopes| then slopes[|slopes| - 1]
    else if slopes[i - 1] * slopes[i] <= 0.0 then 0.0
    else (slopes[i - 1] + slopes[i]) / 2.0
  }

  function FirstOf(slopes: seq<real>): (r: seq<real>)
    requires |slopes| >= 1
    ensures |r| == |slopes| + 1
  {
    seq(|slopes| + 1, i requires 0 <= i <= |slopes| => FirstTangent(slopes, i))
  }

  lemma FirstTangentAlong(slopes: seq<real>, i: nat)
    requires i <= |slopes| && |slopes| >= 1
    ensures i < |slopes| ==> Along(slopes[i], FirstTangent(slopes, i))
    ensures i > 0 ==> Along(slopes[i - 1], FirstTangent(slopes, i))
  {
    if 0 < i < |slopes| {
      var r, s := slopes[i - 1], slopes[i];
      SquareNonnegative(r);
      SquareNonnegative(s);
      assert s * ((r + s) / 2.0) == (r * s + s * s) / 2.0;
      assert r * ((r + s) / 2.0) == (r * s + r * r) / 2.0;
    } else if i == 0 {
      SquareNonnegative(slopes[0]);
    } else {
      SquareNonnegative(slopes[|slopes| - 1]);
    }
  }

  /** One segment's turn: a limited pair is left alone; another is scaled, both alike, onto the circle. */
  predicate Turned(s: real, m: real, n: real, k: real, m': real, n': real) {
    0.0 <= k <= 1.0 && m' == k * m && n' == k * n && Limited(s, m', n') &&
    if Limited(s, m, n) then m' == m && n' == n else Square(m') + Square(n') == 9.0 * Square(s)
  }

  lemma ZeroFactor(q: real, y: real, x: real)
    requires x == q * y && y == 0.0
    ensures x == 0.0
  {
  }

  lemma Reassociate(t: real, a: real, s: real, m: real)
    requires a * s == m
    ensures t * a * s == t * m
  {
  }

  lemma Rescaled(s: real, m: real, n: real, a: real, b: real, root: real, t: real, m': real, n': real)
    requires s != 0.0 && a >= 0.0 && b >= 0.0 && a * s == m && b * s == n && Square(a) + Square(b) > 9.0
    requires root >= 0.0 && Square(root) == Square(a) + Square(b) && (root > 0.0 ==> t == 3.0 / root)
    requires m' == t * a * s && n' == t * b * s
    ensures Limited(s, m', n') && Square(m') + Square(n') == 9.0 * Square(s)
    ensures 0.0 <= t <= 1.0 && m' == t * m && n' == t * n
  {
    LimitReaches(a, b, root, t);
    Reassociate(t, a, s, m);
    Reassociate(t, b, s, n);
    RatiosLimited(s, t * a, t * b);
    ScaledSum(t * a, t * b, s);
    ZeroFactor(Square(s), 9.0 - (Square(t * a) + Square(t * b)), 9.0 * Square(s) - (Square(m') + Square(n')));
  }

  lemma RatioSign(s: real, m: real, a: real)
    requires s != 0.0 && Along(s, m) && a == m / s
    ensures a >= 0.0 && a * s == m
  {
    assert a * s == m;
    AlongRatio(s, a);
  }

  method LimitSegment(s: real, m: real, n: real, sqrt: real -> real) returns (m': real, n': real, ghost k: real)
    requires Along(s, m) && Along(s, n)
    requires IsSqrt(sqrt)
    ensures Limited(s, m', n') && (Limited(s, m, n) ==> m' == m && n' == n)
    ensures Turned(s, m, n, k, m', n')
  {
    m', n', k := m, n, 1.0;
    if s == 0.0 {
      m', n', k := 0.0, 0.0, 0.0;
      if Limited(s, m, n) {
        SumOfSquares(m, n);
      }
      return;
    }
    var a, b := m / s, n / s;
    RatioSign(s, m, a);
    RatioSign(s, n, b);
    RatiosLimited(s, a, b);
    var sum := Square(a) + Square(b);
    if sum > 9.0 {
      var root := sqrt(sum);
      var t := 3.0 / root;
      m', n', k := t * a * s, t * b * s, t;
      Rescaled(s, m, n, a, b, root, t, m', n');
    }
  }

  lemma LimitedAfter(s: real, m: real, n: real, k: real, n': real)
    requires Limited(s, m, n) && 0.0 <= k <= 1.0 && n' == k * n
    ensures Limited(s, m, n')
  {
    ShrinkKeepsLimited(s, m, n, k);
  }

  lemma LimitedBefore(s: real, m: real, n: real, k: real, m': real)
    requires Limited(s, m, n) && 0.0 <= k <= 1.0 && m' == k * m
    ensures Limited(s, m', n)
  {
    LimitedAfter(s, n, m, k, m');
  }

  lemma AlongAfter(s: real, m: real, k: real, m': real)
    requires Along(s, m) && 0.0 <= k && m' == k * m
    ensures Along(s, m')
  {
    ShrinkKeepsAlong(s, m, k);
  }

  lemma ScaledDown(k: real, m: real, m': real)
    requires 0.0 <= k <= 1.0 && m >= 0.0 && m' == k * m
    ensures 0.0 <= m' <= m
  {
    Nonnegative(k, m);
    var rest := NonnegativeProduct(1.0 - k, m);
    assert m' + rest == m;
  }

  lemma ScaledBetween(f: real, m: real, k: real, m': real)
    requires Between(0.0, m, f) && 0.0 <= k <= 1.0 && m' == k * m
    ensures Between(0.0, m', f)
  {
    if m >= 0.0 {
      ScaledDown(k, m, m');
    } else {
      ScaledDown(k, -m, -m');
    }
  }

  /**
  The limiting loop after `i` turns, turn by turn: turn `k` finds the tangents
  `entered[k]` and `first[k + 1]` and leaves `tangents[k]` and `entered[k + 1]`,
  scaled by `factors[k]`.
  */
  ghost predicate Chained(slopes: seq<real>, first: seq<real>, entered: seq<real>, factors: seq<real>,
                          tangents: seq<real>, i: nat)
    requires |first| == |tangents| == |slopes| + 1 && i <= |slopes|
  {
    |entered| == i + 1 && |factors| == i && entered[0] == first[0] && tangents[i..] == [entered[i]] + first[i + 1..] &&
    forall k :: 0 <= k < i ==> Turned(slopes[k], entered[k], first[k + 1], factors[k], tangents[k], entered[k + 1])
  }

  /** What a tangent enters its own segment's turn with: its first value, or that scaled once. */
  lemma EnteredScaled(slopes: seq<real>, first: seq<real>, entered: seq<real>, factors: seq<real>,
                      tangents: seq<real>, i: nat, k: nat) returns (c: real)
    requires |first| == |tangents| == |slopes| + 1 && k <= i <= |slopes|
    requires Chained(slopes, first, entered, factors, tangents, i)
    ensures 0.0 <= c <= 1.0 && entered[k] == c * first[k]
  {
    if k == 0 {
      c := 1.0;
    } else {
      c := factors[k - 1];
      assert Turned(slopes[k - 1], entered[k - 1], first[k], c, tangents[k - 1], entered[k]);
    }
  }

  /** And what it leaves the loop with: that, scaled once more. */
  lemma LeftScaled(slopes: seq<real>, first: seq<real>, entered: seq<real>, factors: seq<real>,
                   tangents: seq<real>, k: nat) returns (c: real)
    requires |first| == |tangents| == |slopes| + 1 && k <= |slopes|
    requires Chained(slopes, first, entered, factors, tangents, |slopes|)
    ensures 0.0 <= c <= 1.0 && tangents[k] == c * entered[k]
  {
    if k == |slopes| {
      c := 1.0;
      assert tangents[k] == tangents[|slopes|..][0];
    } else {
      c := factors[k];
      assert Turned(slopes[k], entered[k], first[k + 1], c, tangents[k], entered[k + 1]);
    }
  }

  /** Later turns break no segment: every one is limited in the end. */
  lemma ChainLimits(slopes: seq<real>, first: seq<real>, entered: seq<real>, factors: seq<real>, tangents: seq<real>, k: nat)
    requires |first| == |tangents| == |slopes| + 1 && k < |slopes|
    requires Chained(slopes, first, entered, factors, tangents, |slopes|)
    ensures Limited(slopes[k], tangents[k], tangents[k + 1])
  {
    var c := LeftScaled(slopes, first, entered, factors, tangents, k + 1);
    assert Turned(slopes[k], entered[k], first[k + 1], factors[k], tangents[k], entered[k + 1]);
    LimitedAfter(slopes[k], tangents[k], entered[k + 1], c, tangents[k + 1]);
  }

  lemma ChainShrinks(slopes: seq<real>, first: seq<real>, entered: seq<real>, factors: seq<real>, tangents: seq<real>, k: nat)
    requires |first| == |tangents| == |slopes| + 1 && k <= |slopes|
    requires Chained(slopes, first, entered, factors, tangents, |slopes|)
    ensures Between(0.0, tangents[k], first[k])
  {
    var c := EnteredScaled(slopes, first, entered, factors, tangents, |slopes|, k);
    var d := LeftScaled(slopes, first, entered, factors, tangents, k);
    ScaledBetween(first[k], first[k], c, entered[k]);
    ScaledBetween(first[k], entered[k], d, tangents[k]);
  }

  /** The segments beside tangent `k` are limited from the start. */
  predicate Spared(slopes: seq<real>, first: seq<real>, k: nat)
    requires |first| == |slopes| + 1 && k <= |slopes|
  {
    (k == 0 || Limited(slopes[k - 1], first[k - 1], first[k])) &&
    (k == |slopes| || Limited(slopes[k], first[k], first[k + 1]))
  }

  /** A tangent whose segments need no limiting keeps its first value. */
  lemma ChainSpares(slopes: seq<real>, first: seq<real>, entered: seq<real>, factors: seq<real>, tangents: seq<real>, k: nat)
    requires |first| == |tangents| == |slopes| + 1 && k <= |slopes|
    requires Chained(slopes, first, entered, factors, tangents, |slopes|) && Spared(slopes, first, k)
    ensures tangents[k] == first[k]
  {
    if k > 0 {
      var c := EnteredScaled(slopes, first, entered, factors, tangents, |slopes|, k - 1);
      LimitedBefore(slopes[k - 1], first[k - 1], first[k], c, entered[k - 1]);
      assert Turned(slopes[k - 1], entered[k - 1], first[k], factors[k - 1], tangents[k - 1], entered[k]);
    }
    if k < |slopes| {
      assert Turned(slopes[k], entered[k], first[k + 1], factors[k], tangents[k], entered[k + 1]);
    } else {
      assert tangents[k] == tangents[|slopes|..][0];
    }
  }

  /** The loop is over: every segment is limited, every tangent shrunk if anything, and spared where it can be. */
  ghost predicate AllLimited(slopes: seq<real>, first: seq<real>, tangents: seq<real>)
    requires |first| == |tangents| == |slopes| + 1
  {
    (forall k :: 0 <= k < |slopes| ==> Limited(slopes[k], tangents[k], tangents[k + 1])) &&
    (forall k :: 0 <= k < |first| ==> Between(0.0, tangents[k], first[k])) &&
    (forall k :: 0 <= k < |first| && Spared(slopes, first, k) ==> tangents[k] == first[k])
  }

  lemma ChainOver(slopes: seq<real>, first: seq<real>, entered: seq<real>, factors: seq<real>, tangents: seq<real>)
    requires |first| == |tangents| == |slopes| + 1
    requires Chained(slopes, first, entered, factors, tangents, |slopes|)
    ensures AllLimited(slopes, first, tangents)
  {
    forall k | 0 <= k < |slopes| ensures Limited(slopes[k], tangents[k], tangents[k + 1]) {
      ChainLimits(slopes, first, entered, factors, tangents, k);
    }
    forall k | 0 <= k < |first| ensures Between(0.0, tangents[k], first[k]) {
      ChainShrinks(slopes, first, entered, factors, tangents, k);
    }
    forall k | 0 <= k < |first| && Spared(slopes, first, k) ensures tangents[k] == first[k] {
      ChainSpares(slopes, first, entered, factors, tangents, k);
    }
  }

  /** The pair a turn starts from points along its slope. */
  lemma EntersAlong(slopes: seq<real>, first: seq<real>, entered: seq<real>, factors: seq<real>, tangents: seq<real>, i: nat)
    requires |first| == |tangents| == |slopes| + 1 && i < |slopes| && AllAlong(slopes, first)
    requires Chained(slopes, first, entered, factors, tangents, i)
    ensures tangents[i] == entered[i] && tangents[i + 1] == first[i + 1]
    ensures Along(slopes[i], tangents[i]) && Along(slopes[i], tangents[i + 1])
  {
    assert tangents[i] == tangents[i..][0] && tangents[i + 1] == tangents[i..][1];
    var c := EnteredScaled(slopes, first, entered, factors, tangents, i, i);
    AlongAfter(slopes[i], first[i], c, entered[i]);
  }

  lemma ChainMore(slopes: seq<real>, first: seq<real>, entered: seq<real>, factors: seq<real>, tangents: seq<real>, i: nat,
                  k: real, m: real, n: real)
    requires |first| == |tangents| == |slopes| + 1 && i < |slopes|
    requires Chained(slopes, first, entered, factors, tangents, i)
    requires Turned(slopes[i], entered[i], first[i + 1], k, m, n)
    ensures Chained(slopes, first, entered + [n], factors + [k], tangents[i := m][i + 1 := n], i + 1)
  {
    assert tangents[i..][2..] == first[i + 2..];
    assert tangents[i := m][i + 1 := n][i + 1..] == [n] + first[i + 2..];
  }

  /** One turn of the limiting loop. */
  method LimitNext(slopes: seq<real>, tangents: array<real>, i: nat, sqrt: real -> real,
                   ghost first: seq<real>, ghost entered: seq<real>, ghost factors: seq<real>)
    returns (ghost n: real, ghost k: real)
    requires |first| == tangents.Length == |slopes| + 1 && i < |slopes| && AllAlong(slopes, first)
    requires Chained(slopes, first, entered, factors, tangents[..], i)
    requires IsSqrt(sqrt)
    modifies tangents
    ensures Chained(slopes, first, entered + [n], factors + [k], tangents[..], i + 1)
  {
    ghost var was := tangents[..];
    EntersAlong(slopes, first, entered, factors, was, i);
    var l, r;
    l, r, k := LimitSegment(slopes[i], tangents[i], tangents[i + 1], sqrt);
    n := r;
    ChainMore(slopes, first, entered, factors, was, i, k, l, r);
    tangents[i] := l;
    tangents[i + 1] := r;
    assert tangents[..] == was[i := l][i + 1 := r];
  }

  /** Limits every segment in place. */
  method LimitTangents(slopes: seq<real>, tangents: array<real>, sqrt: real -> real)
    returns (ghost entered: seq<real>, ghost factors: seq<real>)
    requires tangents.Length == |slopes| + 1 && AllAlong(slopes, tangents[..])
    requires IsSqrt(sqrt)
    modifies tangents
    ensures Chained(slopes, old(tangents[..]), entered, factors, tangents[..], |slopes|)
    ensures AllLimited(slopes, old(tangents[..]), tangents[..])
  {
    entered, factors := [tangents[0]], [];
    assert tangents[..] == [tangents[0]] + tangents[..][1..];
    for i := 0 to |slopes|
      invariant Chained(slopes, old(tangents[..]), entered, factors, tangents[..], i)
    {
      ghost var n, k := LimitNext(slopes, tangents, i, sqrt, old(tangents[..]), entered, factors);
      entered, factors := entered + [n], factors + [k];
    }
    ChainOver(slopes, old(tangents[..]), entered, factors, tangents[..]);
  }

  ghost predicate Connects(p: Point, q: Point, k: Cubic) {
    k.p0 == p && k.p1 == q && Monotone(k)
  }

  /** The curve passes through every point, and each piece is monotone and overshoots nothing. */
  ghost predicate Smooth(points: seq<Point>, path: seq<Cubic>) {
    |path| == |points| - 1 &&
    forall i :: 0 <= i < |path| ==> Connects(points[i], points[i + 1], path[i])
  }

  /** Two pieces have the same tangent where they meet. */
  predicate Joint(k: Cubic, l: Cubic) {
    (k.p1.y - k.c2.y) * (l.c1.x - l.p0.x) == (l.c1.y - l.p0.y) * (k.p1.x - k.c2.x)
  }

  ghost predicate Joined(path: seq<Cubic>) {
    forall i :: 0 < i < |path| ==> Joint(path[i - 1], path[i])
  }

  lemma PieceAt(points: seq<Point>, tangents: seq<real>, i: nat, k: Cubic)
    requires Increasing(points) && |tangents| == |points| && i < |points| - 1
    requires LimitedUpTo(Slopes(points), tangents, |points| - 1)
    requires k == MakePiece(points[i], points[i + 1], tangents[i], tangents[i + 1])
    ensures Connects(points[i], points[i + 1], k)
  {
    assert Limited(Slopes(points)[i], tangents[i], tangents[i + 1]);
    LimitedIsMonotone(points[i], points[i + 1], tangents[i], tangents[i + 1]);
  }

  lemma PiecesSmooth(points: seq<Point>, tangents: seq<real>, path: seq<Cubic>)
    requires Increasing(points) && |tangents| == |points| && |path| == |points| - 1
    requires LimitedUpTo(Slopes(points), tangents, |path|)
    requires forall k :: 0 <= k < |path| ==> path[k] == MakePiece(points[k], points[k + 1], tangents[k], tangents[k + 1])
    ensures Smooth(points, path)
  {
    forall i | 0 <= i < |path| ensures Connects(points[i], points[i + 1], path[i]) {
      PieceAt(points, tangents, i, path[i]);
    }
  }

  lemma SharedTangent(p: Point, q: Point, r: Point, l: real, m: real, n: real)
    ensures Joint(MakePiece(p, q, l, m), MakePiece(q, r, m, n))
  {
  }

  lemma PiecesJoined(points: seq<Point>, tangents: seq<real>, path: seq<Cubic>)
    requires |tangents| == |points| && |path| == |points| - 1
    requires forall k :: 0 <= k < |path| ==> path[k] == MakePiece(points[k], points[k + 1], tangents[k], tangents[k + 1])
    ensures Joined(path)
  {
    forall i | 0 < i < |path| ensures Joint(path[i - 1], path[i]) {
      SharedTangent(points[i - 1], points[i], points[i + 1], tangents[i - 1], tangents[i], tangents[i + 1]);
    }
  }

  method FirstTangents(slopes: seq<real>) returns (tangents: array<real>)
    requires |slopes| >= 1
    ensures fresh(tangents) && tangents.Length == |slopes| + 1 && AllAlong(slopes, tangents[..])
    ensures tangents[..] == FirstOf(slopes)
  {
    tangents := new real[|slopes| + 1](i requires 0 <= i <= |slopes| => FirstTangent(slopes, i));
    forall k | 0 <= k < |slopes| ensures Along(slopes[k], tangents[k]) && Along(slopes[k], tangents[k + 1]) {
      FirstTangentAlong(slopes, k);
      FirstTangentAlong(slopes, k + 1);
    }
  }

  /** A piece from `p` to `q` that leaves with slope `m` and arrives with slope `n`, its controls a third of the way in. */
  predicate Leaves(k: Cubic, p: Point, q: Point, m: real, n: real) {
    k.p0 == p && k.p1 == q && 3.0 * (k.c1.x - p.x) == q.x - p.x && 3.0 * (q.x - k.c2.x) == q.x - p.x &&
    k.c1.y - p.y == m * (k.c1.x - p.x) && q.y - k.c2.y == n * (q.x - k.c2.x)
  }

  lemma MadeLeaves(p: Point, q: Point, m: real, n: real)
    ensures Leaves(MakePiece(p, q, m, n), p, q, m, n)
  {
  }

  /** The pieces drawn with the given tangents. */
  ghost predicate DrawnWith(points: seq<Point>, tangents: seq<real>, path: seq<Cubic>) {
    |tangents| == |points| && |path| == |points| - 1 &&
    forall k :: 0 <= k < |path| ==> Leaves(path[k], points[k], points[k + 1], tangents[k], tangents[k + 1])
  }

  /** Between two rises or two falls the mean of both slopes; at a turn or beside a flat segment none. */
  predicate Middle(p: Point, q: Point, r: Point, m: real)
    requires p.x < q.x < r.x
  {
    if p.y < q.y < r.y || p.y > q.y > r.y then 2.0 * m == Slope(p, q) + Slope(q, r)
    else m == 0.0
  }

  predicate RiseOverRun(p: Point, q: Point, m: real) {
    m * (q.x - p.x) == q.y - p.y
  }

  /** The tangent a point starts with. */
  predicate StartsWith(points: seq<Point>, i: nat, m: real)
    requires |points| >= 2 && Increasing(points) && i < |points|
  {
    if i == 0 then RiseOverRun(points[0], points[1], m)
    else if i == |points| - 1 then RiseOverRun(points[i - 1], points[i], m)
    else Middle(points[i - 1], points[i], points[i + 1], m)
  }

  ghost predicate AllStart(points: seq<Point>, first: seq<real>)
    requires |points| >= 2 && Increasing(points)
  {
    |first| == |points| && forall i :: 0 <= i < |points| ==> StartsWith(points, i, first[i])
  }

  lemma SlopeSign(p: Point, q: Point)
    requires p.x < q.x
    ensures Slope(p, q) * (q.x - p.x) == q.y - p.y
    ensures (Slope(p, q) > 0.0 <==> q.y > p.y) && (Slope(p, q) < 0.0 <==> q.y < p.y)
  {
    var s, w := Slope(p, q), q.x - p.x;
    assert s * w == q.y - p.y;
    if s > 0.0 {
      Positive(s, w);
    } else if s < 0.0 {
      Positive(-s, w);
    }
  }

  lemma SameSign(r: real, s: real)
    ensures r * s > 0.0 <==> (r > 0.0 && s > 0.0) || (r < 0.0 && s < 0.0)
  {
    if r > 0.0 && s > 0.0 {
      Positive(r, s);
    } else if r < 0.0 && s < 0.0 {
      Positive(-r, -s);
    } else if r >= 0.0 && s <= 0.0 {
      Nonnegative(r, -s);
    } else {
      Nonnegative(-r, s);
    }
  }

  lemma EndStarts(p: Point, q: Point, m: real)
    requires p.x < q.x && m == Slope(p, q)
    ensures RiseOverRun(p, q, m)
  {
    SlopeSign(p, q);
  }

  lemma MiddleStarts(p: Point, q: Point, r: Point, s: real, t: real, m: real)
    requires p.x < q.x < r.x && s == Slope(p, q) && t == Slope(q, r)
    requires m == if s * t <= 0.0 then 0.0 else (s + t) / 2.0
    ensures Middle(p, q, r, m)
  {
    SlopeSign(p, q);
    SlopeSign(q, r);
    SameSign(s, t);
  }

  lemma FirstStartsAtEnd(points: seq<Point>, i: nat, m: real)
    requires |points| >= 2 && Increasing(points) && (i == 0 || i == |points| - 1)
    requires m == FirstTangent(Slopes(points), i)
    ensures StartsWith(points, i, m)
  {
    if i == 0 {
      EndStarts(points[0], points[1], m);
    } else {
      EndStarts(points[i - 1], points[i], m);
    }
  }

  lemma FirstStartsBetween(points: seq<Point>, i: nat, m: real)
    requires |points| >= 2 && Increasing(points) && 0 < i < |points| - 1
    requires m == FirstTangent(Slopes(points), i)
    ensures StartsWith(points, i, m)
  {
    MiddleStarts(points[i - 1], points[i], points[i + 1], Slopes(points)[i - 1], Slopes(points)[i], m);
  }

  lemma FirstStart(points: seq<Point>, first: seq<real>)
    requires |points| >= 2 && Increasing(points) && first == FirstOf(Slopes(points))
    ensures AllStart(points, first)
  {
    forall i | 0 <= i < |points| ensures StartsWith(points, i, first[i]) {
      if i == 0 || i == |points| - 1 {
        FirstStartsAtEnd(points, i, first[i]);
      } else {
        FirstStartsBetween(points, i, first[i]);
      }
    }
  }

  /** The tangents are those the points start with after the limiting loop's turns. */
  ghost predicate GoodTangents(points: seq<Point>, first: seq<real>, tangents: seq<real>, entered: seq<real>, factors: seq<real>)
    requires |points| >= 2 && Increasing(points)
  {
    |tangents| == |points| && AllStart(points, first) &&
    Chained(Slopes(points), first, entered, factors, tangents, |points| - 1) &&
    AllLimited(Slopes(points), first, tangents)
  }

  /** The tangents before and after the limiting loop, and what each of its turns found and did. */
  datatype Work = Work(first: seq<real>, tangents: seq<real>, entered: seq<real>, factors: seq<real>)

  method Draw(points: seq<Point>, sqrt: real -> real) returns (path: seq<Cubic>, ghost w: Work)
    requires |points| >= 1 && Increasing(points)
    requires IsSqrt(sqrt)
    ensures Smooth(points, path) && Joined(path)
    ensures |points| >= 2 ==>
      DrawnWith(points, w.tangents, path) && GoodTangents(points, w.first, w.tangents, w.entered, w.factors)
  {
    path, w := [], Work([], [], [], []);
    if |points| == 1 {
      return;
    }
    var slopes := Slopes(points);
    var ts := FirstTangents(slopes);
    ghost var first := ts[..];
    FirstStart(points, first);
    ghost var entered, factors := LimitTangents(slopes, ts, sqrt);
    ghost var tangents := ts[..];
    for i := 0 to |points| - 1
      invariant |path| == i && ts[..] == tangents
      invariant forall k :: 0 <= k < i ==> path[k] == MakePiece(points[k], points[k + 1], tangents[k], tangents[k + 1])
    {
      path := path + [MakePiece(points[i], points[i + 1], ts[i], ts[i + 1])];
    }
    PiecesSmooth(points, tangents, path);
    PiecesJoined(points, tangents, path);
    forall k | 0 <= k < |path| ensures Leaves(path[k], points[k], points[k + 1], tangents[k], tangents[k + 1]) {
      MadeLeaves(points[k], points[k + 1], tangents[k], tangents[k + 1]);
    }
    w := Work(first, tangents, entered, factors);
  }

  /** Values drawn between two bounds stay between them along the whole curve. */
  lemma NeverOvershoots(points: seq<Point>, path: seq<Cubic>, low: real, high: real, i: nat, t: real)
    requires Smooth(points, path) && i < |path| && 0.0 <= t <= 1.0
    requires forall k :: 0 <= k < |points| ==> low <= points[k].y <= high
    ensures low <= Y(path[i], t) <= high
  {
    assert Connects(points[i], points[i + 1], path[i]);
    assert Rises(path[i], t, t);
  }

  // ---- Two laws -------------------------------------------------------------------------

  /** On points spaced `h` apart, the tangent between two rises or two falls is the central difference. */
  lemma CentralDifference(p: Point, q: Point, r: Point, h: real, m: real)
    requires h > 0.0 && q.x - p.x == h && r.x - q.x == h && Middle(p, q, r, m) && (p.y < q.y < r.y || p.y > q.y > r.y)
    ensures m * (2.0 * h) == r.y - p.y
  {
    SlopeSign(p, q);
    SlopeSign(q, r);
    Distribute(h, Slope(p, q), Slope(q, r));
  }

  predicate OnLine(p: Point, b: real, c: real) {
    p.y == b + c * p.x
  }

  lemma LineSlope(p: Point, q: Point, b: real, c: real, m: real)
    requires p.x < q.x && OnLine(p, b, c) && OnLine(q, b, c) && m * (q.x - p.x) == q.y - p.y
    ensures m == c
  {
    var w := q.x - p.x;
    assert c * w == q.y - p.y;
    assert (m - c) * w == 0.0;
  }

  lemma LineRises(p: Point, q: Point, b: real, c: real)
    requires p.x < q.x && OnLine(p, b, c) && OnLine(q, b, c)
    ensures Slope(p, q) == c && (c > 0.0 <==> p.y < q.y) && (c < 0.0 <==> p.y > q.y)
  {
    SlopeSign(p, q);
    LineSlope(p, q, b, c, Slope(p, q));
  }

  lemma LineStarts(points: seq<Point>, b: real, c: real, i: nat, m: real)
    requires |points| >= 2 && Increasing(points) && i < |points| && StartsWith(points, i, m)
    requires forall k :: 0 <= k < |points| ==> OnLine(points[k], b, c)
    ensures m == c
  {
    if i == 0 {
      LineSlope(points[0], points[1], b, c, m);
    } else if i == |points| - 1 {
      LineSlope(points[i - 1], points[i], b, c, m);
    } else {
      LineRises(points[i - 1], points[i], b, c);
      LineRises(points[i], points[i + 1], b, c);
    }
  }

  lemma LineLimited(c: real)
    ensures Limited(c, c, c)
  {
    SquareNonnegative(c);
  }

  predicate Lined(b: real, c: real, x: real, y: real) {
    y == b + c * x
  }

  lemma MixOnLine(b: real, c: real, t: real, x: real, y: real, x': real, y': real)
    requires Lined(b, c, x, x') && Lined(b, c, y, y')
    ensures Lined(b, c, Mix(t, x, y), Mix(t, x', y'))
  {
    assert c * Mix(t, x, y) == (1.0 - t) * (c * x) + t * (c * y);
  }

  ghost predicate AllLined(b: real, c: real, xs: seq<real>, ys: seq<real>)
    requires |xs| == |ys|
  {
    forall i :: 0 <= i < |xs| ==> Lined(b, c, xs[i], ys[i])
  }

  /** The construction of a curve commutes with a line. */
  lemma {:induction false} CurveOnLine(b: real, c: real, xs: seq<real>, ys: seq<real>, t: real)
    requires |xs| == |ys| >= 1 && AllLined(b, c, xs, ys)
    ensures Lined(b, c, Curve(xs, t), Curve(ys, t))
  {
    var n := |xs| - 1;
    if n > 0 {
      assert AllLined(b, c, xs[..n], ys[..n]) && AllLined(b, c, xs[1..], ys[1..]);
      CurveOnLine(b, c, xs[..n], ys[..n], t);
      CurveOnLine(b, c, xs[1..], ys[1..], t);
      MixOnLine(b, c, t, Curve(xs[..n], t), Curve(xs[1..], t), Curve(ys[..n], t), Curve(ys[1..], t));
    } else {
      assert Lined(b, c, xs[0], ys[0]);
    }
  }

  lemma ControlOnLine(p: Point, k: Point, b: real, c: real)
    requires OnLine(p, b, c) && k.y - p.y == c * (k.x - p.x)
    ensures OnLine(k, b, c)
  {
    assert c * (k.x - p.x) == c * k.x - c * p.x;
  }

  lemma PieceOnLine(k: Cubic, p: Point, q: Point, b: real, c: real, t: real)
    requires Leaves(k, p, q, c, c) && OnLine(p, b, c) && OnLine(q, b, c)
    ensures Lined(b, c, X(k, t), Y(k, t))
  {
    ControlOnLine(p, k.c1, b, c);
    ControlOnLine(q, k.c2, b, c);
    CurveOnLine(b, c, [k.p0.x, k.c1.x, k.c2.x, k.p1.x], [k.p0.y, k.c1.y, k.c2.y, k.p1.y], t);
  }

  lemma LineTangents(points: seq<Point>, w: Work, b: real, c: real, k: nat)
    requires |points| >= 2 && Increasing(points) && k < |points|
    requires GoodTangents(points, w.first, w.tangents, w.entered, w.factors)
    requires forall i :: 0 <= i < |points| ==> OnLine(points[i], b, c)
    ensures w.tangents[k] == c
  {
    forall i | 0 <= i < |points| ensures w.first[i] == c {
      LineStarts(points, b, c, i, w.first[i]);
    }
    forall i | 0 <= i < |points| - 1 ensures Slopes(points)[i] == c {
      LineRises(points[i], points[i + 1], b, c);
    }
    LineLimited(c);
    assert Spared(Slopes(points), w.first, k);
  }

  /** Points on a line are drawn as that line. */
  lemma StraightStaysStraight(points: seq<Point>, path: seq<Cubic>, w: Work, b: real, c: real, k: nat, t: real)
    requires |points| >= 2 && Increasing(points) && DrawnWith(points, w.tangents, path) && k < |path|
    requires GoodTangents(points, w.first, w.tangents, w.entered, w.factors)
    requires forall i :: 0 <= i < |points| ==> OnLine(points[i], b, c)
    ensures Y(path[k], t) == b + c * X(path[k], t)
  {
    LineTangents(points, w, b, c, k);
    LineTangents(points, w, b, c, k + 1);
    assert Leaves(path[k], points[k], points[k + 1], c, c);
    PieceOnLine(path[k], points[k], points[k + 1], b, c, t);
  }
}
