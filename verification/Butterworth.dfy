/**
 What the six tables are: third-order Butterworth bandpasses, to one part in a hundred million
 of full scale at every frequency.

 Frequencies enter as t = 1 - cos of their angle, from 0 for a constant to 2 at half the
 sampling rate, and squared gains as quotients of polynomials in t.
 */
module Butterworth {
  import opened RealAlgebra
  import opened Biquads
  import opened Cascades
  import opened Stability
  import opened Tones
  import opened Bandpass

  // ---------- Quadratics ----------

  datatype Quadratic = Quadratic(k0: real, k1: real, k2: real)

  datatype Quartic = Quartic(k0: real, k1: real, k2: real, k3: real, k4: real)

  function Line(k0: real, k1: real, t: real): real {
    k0 + k1 * t
  }

  function Parabola(k0: real, k1: real, k2: real, t: real, t2: real): real {
    k0 + k1 * t + k2 * t2
  }

  function Higher(k3: real, k4: real, t3: real, t4: real): real {
    k3 * t3 + k4 * t4
  }

  function At(p: Quadratic, t: real): real {
    Parabola(p.k0, p.k1, p.k2, t, Square(t))
  }

  function QuarticAt(p: Quartic, t: real): real {
    Parabola(p.k0, p.k1, p.k2, t, Square(t)) + Higher(p.k3, p.k4, Product(t, Square(t)), Square(Square(t)))
  }

  function Multiplied(p: Quadratic, q: Quadratic): Quartic {
    Quartic(Product(p.k0, q.k0), Product(p.k0, q.k1) + Product(p.k1, q.k0),
            Product(p.k0, q.k2) + Product(p.k1, q.k1) + Product(p.k2, q.k0),
            Product(p.k1, q.k2) + Product(p.k2, q.k1), Product(p.k2, q.k2))
  }

  lemma Distributes(k: real, a: real, b: real, c: real, x: real, y: real, z: real)
    ensures k * (a * x + b * y + c * z) == (k * a) * x + (k * b) * y + (k * c) * z
  {
  }

  lemma Gathered(a: real, b: real, c: real, x: real)
    ensures a * x + b * x == (a + b) * x && a * x + b * x + c * x == (a + b + c) * x
  {
  }

  lemma MultipliedAt(p: Quadratic, q: Quadratic, t: real)
    ensures QuarticAt(Multiplied(p, q), t) == Product(At(p, t), At(q, t))
  {
    hide Square, Product;
    SquaresAre(t, Square(t), Product(t, Square(t)), Square(Square(t)));
    ProductsAre(p, q);
    ProductIs(At(p, t), At(q, t));
    MultipliedOut(p, q, At(q, t), t, Square(t), Product(t, Square(t)), Square(Square(t)),
                  Product(p.k0, q.k0), Product(p.k0, q.k1), Product(p.k0, q.k2),
                  Product(p.k1, q.k0), Product(p.k1, q.k1), Product(p.k1, q.k2),
                  Product(p.k2, q.k0), Product(p.k2, q.k1), Product(p.k2, q.k2));
  }

  lemma ProductIs(x: real, y: real)
    ensures Product(x, y) == x * y
  {
  }

  lemma ProductsAre(p: Quadratic, q: Quadratic)
    ensures Product(p.k0, q.k0) == p.k0 * q.k0 && Product(p.k0, q.k1) == p.k0 * q.k1
    ensures Product(p.k0, q.k2) == p.k0 * q.k2 && Product(p.k1, q.k0) == p.k1 * q.k0
    ensures Product(p.k1, q.k1) == p.k1 * q.k1 && Product(p.k1, q.k2) == p.k1 * q.k2
    ensures Product(p.k2, q.k0) == p.k2 * q.k0 && Product(p.k2, q.k1) == p.k2 * q.k1
    ensures Product(p.k2, q.k2) == p.k2 * q.k2
  {
  }

  lemma SquaresAre(t: real, t2: real, t3: real, t4: real)
    requires t2 == Square(t) && t3 == Product(t, t2) && t4 == Square(t2)
    ensures t2 == t * t && t3 == t * t2 && t4 == t2 * t2
  {
  }

  lemma MultipliedOut(p: Quadratic, q: Quadratic, y: real, t: real, t2: real, t3: real, t4: real,
                      a00: real, a01: real, a02: real, a10: real, a11: real, a12: real, a20: real, a21: real, a22: real)
    requires t2 == t * t && t3 == t * t2 && t4 == t2 * t2 && y == q.k0 + q.k1 * t + q.k2 * t2
    requires a00 == p.k0 * q.k0 && a01 == p.k0 * q.k1 && a02 == p.k0 * q.k2
    requires a10 == p.k1 * q.k0 && a11 == p.k1 * q.k1 && a12 == p.k1 * q.k2
    requires a20 == p.k2 * q.k0 && a21 == p.k2 * q.k1 && a22 == p.k2 * q.k2
    ensures a00 + (a01 + a10) * t + (a02 + a11 + a20) * t2 + ((a12 + a21) * t3 + a22 * t4)
            == (p.k0 + p.k1 * t + p.k2 * t2) * y
  {
    Shifts(q, y, t, t2, t3, t4);
    Row(p.k0, q, a00, a01, a02, 1.0, t, t2, y);
    Row(p.k1, q, a10, a11, a12, t, t2, t3, t * y);
    Row(p.k2, q, a20, a21, a22, t2, t3, t4, t2 * y);
    ThreeShares(p, y, t, t2, t * y, t2 * y);
    Gathered(a01, a10, 0.0, t);
    Gathered(a02, a11, a20, t2);
    Gathered(a12, a21, 0.0, t3);
  }

  lemma Row(k: real, q: Quadratic, a0: real, a1: real, a2: real, x: real, y: real, z: real, sum: real)
    requires a0 == k * q.k0 && a1 == k * q.k1 && a2 == k * q.k2 && sum == q.k0 * x + q.k1 * y + q.k2 * z
    ensures k * sum == a0 * x + a1 * y + a2 * z
  {
    Distributes(k, q.k0, q.k1, q.k2, x, y, z);
  }

  lemma ThreeShares(p: Quadratic, y: real, t: real, t2: real, y1: real, y2: real)
    requires y1 == t * y && y2 == t2 * y
    ensures (p.k0 + p.k1 * t + p.k2 * t2) * y == p.k0 * y + p.k1 * y1 + p.k2 * y2
  {
    assert (p.k1 * t) * y == p.k1 * (t * y) && (p.k2 * t2) * y == p.k2 * (t2 * y);
  }

  lemma Shifts(q: Quadratic, y: real, t: real, t2: real, t3: real, t4: real)
    requires t2 == t * t && t3 == t * t2 && t4 == t2 * t2 && y == q.k0 + q.k1 * t + q.k2 * t2
    ensures t * y == q.k0 * t + q.k1 * t2 + q.k2 * t3
    ensures t2 * y == q.k0 * t2 + q.k1 * t3 + q.k2 * t4
  {
    assert t * (q.k1 * t) == q.k1 * t2 && t * (q.k2 * t2) == q.k2 * t3;
    assert t2 * (q.k1 * t) == q.k1 * t3 && t2 * (q.k2 * t2) == q.k2 * t4;
  }

  lemma Term(k: real, p: real)
    requires 0.0 <= p
    ensures Abs(k * p) == Abs(k) * p
  {
    ProductIsNonNegative(Abs(k), p);
  }

  lemma TermUpTo(k: real, p: real, most: real)
    requires 0.0 <= p <= most
    ensures Abs(k * p) <= Abs(k) * most
  {
    Term(k, p);
    ProductIsNonNegative(Abs(k), most - p);
  }

  lemma SquareUpTo(t: real, t2: real)
    requires 0.0 <= t <= 2.0 && t2 == t * t
    ensures 0.0 <= t2 <= 2.0 * t
  {
    ProductIsNonNegative(t, t);
    ProductIsNonNegative(t, 2.0 - t);
  }

  lemma HigherUpTo(t: real, t2: real, t3: real, t4: real)
    requires 0.0 <= t <= 2.0 && 0.0 <= t2 <= 2.0 * t && t3 == t * t2 && t4 == t2 * t2
    ensures 0.0 <= t3 <= 2.0 * t2 && 0.0 <= t4 <= 4.0 * t2
  {
    ProductIsNonNegative(t, t2);
    ProductIsNonNegative(2.0 - t, t2);
    ProductIsNonNegative(t2, t2);
    ProductIsNonNegative(4.0 - t2, t2);
  }

  lemma LineSum(x1: real, x2: real, b1: real, b2: real, a1: real, t: real)
    requires Abs(x1) <= b1 * t && Abs(x2) <= b2 * (2.0 * t) && b1 + 2.0 * b2 <= a1 && 0.0 <= t
    ensures Abs(x1 + x2) <= a1 * t
  {
    ProductIsNonNegative(a1 - (b1 + 2.0 * b2), t);
    assert b2 * (2.0 * t) == (2.0 * b2) * t;
  }

  lemma TopSum(x2: real, x3: real, x4: real, b2: real, b3: real, b4: real, a2: real, t2: real)
    requires Abs(x2) <= b2 * t2 && Abs(x3) <= b3 * (2.0 * t2) && Abs(x4) <= b4 * (4.0 * t2)
    requires b2 + 2.0 * b3 + 4.0 * b4 <= a2 && 0.0 <= t2
    ensures Abs(x2 + x3 + x4) <= a2 * t2
  {
    ProductIsNonNegative(a2 - (b2 + 2.0 * b3 + 4.0 * b4), t2);
    assert b3 * (2.0 * t2) == (2.0 * b3) * t2 && b4 * (4.0 * t2) == (4.0 * b4) * t2;
  }

  lemma AbsSum(x: real, y: real, a: real, b: real)
    requires Abs(x) <= a && Abs(y) <= b
    ensures Abs(x + y) <= a + b
  {
  }

  /** On 0 <= t <= 2 the coefficients of a quadratic put it below a line. */
  lemma QuadraticBelow(k0: real, k1: real, k2: real, b1: real, b2: real, a0: real, a1: real, t: real, t2: real)
    requires 0.0 <= t <= 2.0 && Abs(k0) <= a0 && b1 + 2.0 * b2 <= a1 && t2 == Square(t)
    requires b1 == Abs(k1) && b2 == Abs(k2)
    ensures Abs(Parabola(k0, k1, k2, t, t2)) <= Line(a0, a1, t)
  {
    SquareUpTo(t, t2);
    hide Abs, Square;
    TermUpTo(k1, t, t);
    TermUpTo(k2, t2, 2.0 * t);
    SameProduct(t, Abs(k1), b1);
    SameProduct(2.0 * t, Abs(k2), b2);
    LineSum(k1 * t, k2 * t2, b1, b2, a1, t);
    AbsSum(k0, k1 * t + k2 * t2, a0, a1 * t);
    assert Parabola(k0, k1, k2, t, t2) == k0 + (k1 * t + k2 * t2);
  }

  /** And those of a quartic below a quadratic. */
  lemma QuarticBelow(k0: real, k1: real, k2: real, k3: real, k4: real, b2: real, b3: real, b4: real,
                     a0: real, a1: real, a2: real, t: real, t2: real, t3: real, t4: real)
    requires 0.0 <= t <= 2.0 && Abs(k0) <= a0 && Abs(k1) <= a1 && b2 + 2.0 * b3 + 4.0 * b4 <= a2
    requires b2 == Abs(k2) && b3 == Abs(k3) && b4 == Abs(k4)
    requires t2 == Square(t) && t3 == Product(t, t2) && t4 == Square(t2)
    ensures Abs(Parabola(k0, k1, k2, t, t2) + Higher(k3, k4, t3, t4)) <= Parabola(a0, a1, a2, t, t2)
  {
    SquareUpTo(t, t2);
    HigherUpTo(t, t2, t3, t4);
    hide Abs, Square, Product;
    HeadBelow(k0, k1, a0, a1, t);
    TopBelow(k2, k3, k4, b2, b3, b4, a2, t2, t3, t4);
    hide Parabola, Higher, Line;
    AbsSum(Line(k0, k1, t), k2 * t2 + k3 * t3 + k4 * t4, Line(a0, a1, t), a2 * t2);
    Regrouped(k0, k1, k2, k3, k4, t, t2, t3, t4);
    Regrouped(a0, a1, a2, 0.0, 0.0, t, t2, 0.0, 0.0);
  }

  lemma HeadBelow(k0: real, k1: real, a0: real, a1: real, t: real)
    requires Abs(k0) <= a0 && Abs(k1) <= a1 && 0.0 <= t
    ensures Abs(Line(k0, k1, t)) <= Line(a0, a1, t)
  {
    ProductIsNonNegative(a1 - k1, t);
    ProductIsNonNegative(a1 + k1, t);
  }

  lemma Regrouped(k0: real, k1: real, k2: real, k3: real, k4: real, t: real, t2: real, t3: real, t4: real)
    ensures Parabola(k0, k1, k2, t, t2) + Higher(k3, k4, t3, t4) == Line(k0, k1, t) + (k2 * t2 + k3 * t3 + k4 * t4)
    ensures Parabola(k0, k1, k2, t, t2) == Line(k0, k1, t) + k2 * t2
  {
  }

  lemma TopBelow(k2: real, k3: real, k4: real, b2: real, b3: real, b4: real, a2: real, t2: real, t3: real, t4: real)
    requires b2 + 2.0 * b3 + 4.0 * b4 <= a2 && b2 == Abs(k2) && b3 == Abs(k3) && b4 == Abs(k4)
    requires 0.0 <= t2 && 0.0 <= t3 <= 2.0 * t2 && 0.0 <= t4 <= 4.0 * t2
    ensures Abs(k2 * t2 + k3 * t3 + k4 * t4) <= a2 * t2
  {
    hide Abs;
    TermUpTo(k2, t2, t2);
    TermUpTo(k3, t3, 2.0 * t2);
    TermUpTo(k4, t4, 4.0 * t2);
    SameProduct(t2, Abs(k2), b2);
    SameProduct(2.0 * t2, Abs(k3), b3);
    SameProduct(4.0 * t2, Abs(k4), b4);
    TopSum(k2 * t2, k3 * t3, k4 * t4, b2, b3, b4, a2, t2);
  }

  // ---------- The Butterworth shape ----------

  /**
   A third-order Butterworth bandpass, by the centre of its band and how sharply it turns: its
   squared gain is u^3 / (u^3 + v^3) for u the square of the angle's sine and
   v = turn * (t - centre)^2, and so one half exactly where u == v.
   */
  datatype Shape = Shape(turn: real, centre: real)

  predicate IsShape(s: Shape) {
    0.0 < s.turn <= 1.0 && 0.0 < s.centre < 1.0
  }

  function SineSquared(t: real): real {
    t * (2.0 - t)
  }

  function Away(s: Shape, t: real): real {
    s.turn * Square(t - s.centre)
  }

  function Cube(x: real): real {
    x * x * x
  }

  /** u^3 + v^3 is this times the next. */
  function Linear(s: Shape, t: real): real {
    SineSquared(t) + Away(s, t)
  }

  function Paired(s: Shape, t: real): real {
    Square(SineSquared(t)) - SineSquared(t) * Away(s, t) + Square(Away(s, t))
  }

  lemma CubesFactor(u: real, v: real)
    ensures Cube(u) + Cube(v) == (u + v) * (Square(u) - u * v + Square(v))
    ensures Square(u + v) <= 4.0 * (Square(u) - u * v + Square(v))
  {
    SquareIsNonNegative(u - v);
    assert 4.0 * (Square(u) - u * v + Square(v)) - Square(u + v) == 3.0 * Square(u - v);
  }

  const SINE: Quadratic := Quadratic(0.0, 2.0, -1.0)

  const SINE_SQUARED: Quartic := Quartic(0.0, 0.0, 4.0, -4.0, 1.0)

  function AwayOf(s: Shape): Quadratic {
    Quadratic(s.turn * (s.centre * s.centre), -2.0 * (s.turn * s.centre), s.turn)
  }

  lemma SineAndAway(s: Shape, t: real)
    ensures At(SINE, t) == SineSquared(t) && At(AwayOf(s), t) == Away(s, t)
  {
  }

  function LinearOf(s: Shape): Quadratic {
    Quadratic(AwayOf(s).k0, 2.0 + AwayOf(s).k1, -1.0 + AwayOf(s).k2)
  }

  /** u^2 - u v + v^2, from v. */
  function PairedOf(v: Quadratic): Quartic {
    var uu, uv, vv := SINE_SQUARED, Multiplied(SINE, v), Multiplied(v, v);
    Quartic(uu.k0 - uv.k0 + vv.k0, uu.k1 - uv.k1 + vv.k1, uu.k2 - uv.k2 + vv.k2, uu.k3 - uv.k3 + vv.k3,
            uu.k4 - uv.k4 + vv.k4)
  }

  lemma LinearAt(s: Shape, t: real)
    ensures At(LinearOf(s), t) == Linear(s, t)
  {
    SineAndAway(s, t);
    hide AwayOf, SineSquared, Away, Square;
    Gathered(-1.0, AwayOf(s).k2, 0.0, Square(t));
    Gathered(2.0, AwayOf(s).k1, 0.0, t);
  }

  lemma Signed(p: real, q: real, r: real, x: real)
    ensures (p - q + r) * x == p * x - q * x + r * x
  {
  }

  lemma QuarticSum(p: Quartic, q: Quartic, r: Quartic, t: real)
    ensures QuarticAt(Quartic(p.k0 - q.k0 + r.k0, p.k1 - q.k1 + r.k1, p.k2 - q.k2 + r.k2, p.k3 - q.k3 + r.k3,
                              p.k4 - q.k4 + r.k4), t)
            == QuarticAt(p, t) - QuarticAt(q, t) + QuarticAt(r, t)
  {
    hide Square, Product;
    Signed(p.k1, q.k1, r.k1, t);
    Signed(p.k2, q.k2, r.k2, Square(t));
    Signed(p.k3, q.k3, r.k3, Product(t, Square(t)));
    Signed(p.k4, q.k4, r.k4, Square(Square(t)));
  }

  lemma SineSquaredAt(t: real)
    ensures QuarticAt(SINE_SQUARED, t) == Square(SineSquared(t))
  {
    SineTwice(t, Square(t), Product(t, Square(t)), Square(Square(t)));
  }

  lemma SineTwice(t: real, t2: real, t3: real, t4: real)
    requires t2 == t * t && t3 == t * t2 && t4 == t2 * t2
    ensures (t * (2.0 - t)) * (t * (2.0 - t)) == 4.0 * t2 - 4.0 * t3 + t4
  {
    assert t * (2.0 - t) == 2.0 * t - t2;
    assert (2.0 * t - t2) * (2.0 * t - t2) == 4.0 * (t * t) - 4.0 * (t * t2) + t2 * t2;
  }

  lemma PairedOfShape(s: Shape, t: real)
    ensures QuarticAt(PairedOf(AwayOf(s)), t) == Paired(s, t)
  {
    hide Square, At, QuarticAt, AwayOf, SineSquared, Away, Multiplied, Product, Paired;
    SineAndAway(s, t);
    PairedIs(s, t);
    SineSquaredAt(t);
    SquareIsProduct(Away(s, t));
    MultipliedAt(SINE, AwayOf(s), t);
    MultipliedAt(AwayOf(s), AwayOf(s), t);
    QuarticSum(SINE_SQUARED, Multiplied(SINE, AwayOf(s)), Multiplied(AwayOf(s), AwayOf(s)), t);
  }

  lemma SquareIsProduct(x: real)
    ensures Square(x) == Product(x, x)
  {
  }

  lemma PairedIs(s: Shape, t: real)
    ensures Linear(s, t) == SineSquared(t) + Away(s, t)
    ensures Paired(s, t) == Square(SineSquared(t)) - Product(SineSquared(t), Away(s, t)) + Square(Away(s, t))
  {
    hide SineSquared, Away, Square;
  }

  /** A straight line below u + v. */
  function Floor0(s: Shape): real {
    s.turn * (s.centre * s.centre)
  }

  function Floor1(s: Shape): real {
    2.0 * (s.turn * (1.0 - s.centre))
  }

  lemma FloorIsPositive(s: Shape)
    requires IsShape(s)
    ensures 0.0 < Floor0(s) && 0.0 < Floor1(s)
  {
    ProductOfPositives(s.centre, s.centre, s.centre * s.centre);
    ProductOfPositives(s.turn, s.centre * s.centre, Floor0(s));
    ProductOfPositives(s.turn, 1.0 - s.centre, s.turn * (1.0 - s.centre));
  }

  lemma FloorIsBelow(s: Shape, t: real)
    requires IsShape(s) && 0.0 <= t <= 2.0
    ensures 0.0 < Floor0(s) && 0.0 < Floor1(s)
    ensures 0.0 < Line(Floor0(s), Floor1(s), t) <= Linear(s, t)
  {
    FloorIsPositive(s);
    AboveFloor(s.turn, s.centre, t);
    ProductIsNonNegative(t, 2.0 - t);
    ProductIsNonNegative(1.0 - s.turn, t * (2.0 - t));
    assert Linear(s, t) == Floor0(s) + Floor1(s) * t + (1.0 - s.turn) * (t * (2.0 - t));
    hide Floor0, Floor1, Linear;
    ProductIsNonNegative(Floor1(s), t);
  }

  lemma AboveFloor(k: real, m: real, t: real)
    ensures t * (2.0 - t) + k * ((t - m) * (t - m))
            == k * (m * m) + 2.0 * (k * (1.0 - m)) * t + (1.0 - k) * (t * (2.0 - t))
  {
  }

  lemma ShapeIsPositive(s: Shape, t: real)
    requires IsShape(s) && 0.0 <= t <= 2.0
    ensures 0.0 <= SineSquared(t) && 0.0 <= Away(s, t) && 0.0 < Linear(s, t) && 0.0 < Paired(s, t)
    ensures Square(Line(Floor0(s), Floor1(s), t)) <= 4.0 * Paired(s, t)
  {
    FloorIsBelow(s, t);
    ProductIsNonNegative(t, 2.0 - t);
    SquareIsNonNegative(t - s.centre);
    ProductIsNonNegative(s.turn, Square(t - s.centre));
    PairedIs(s, t);
    hide SineSquared, Away, Floor0, Floor1, Square, Line, Linear, Paired, IsShape, Product;
    PairedBound(SineSquared(t), Away(s, t), Linear(s, t), Paired(s, t), Line(Floor0(s), Floor1(s), t));
  }

  lemma PairedBound(u: real, v: real, l: real, p: real, m: real)
    requires 0.0 < m <= l == u + v && p == Square(u) - Product(u, v) + Square(v)
    ensures 0.0 < p && Square(m) <= 4.0 * p
  {
    CubesFactor(u, v);
    SquaresGrow(m, l);
    hide Square;
  }

  lemma SquaresGrow(m: real, l: real)
    requires 0.0 < m <= l
    ensures 0.0 < Square(m) <= Square(l)
  {
    SquareIsPositive(m);
    ProductIsNonNegative(m, l - m);
    ProductIsNonNegative(l, l - m);
  }

  // ---------- Three sections close to a shape ----------

  /** SquaredAt as a quadratic in t. */
  function SquaredOf(k0: real, k1: real, k2: real): Quadratic {
    var a, b, d := k0 * k0 + k1 * k1 + k2 * k2, 2.0 * (k0 * k1 + k1 * k2), 2.0 * (k0 * k2);
    Quadratic(a + b + d, -b - 4.0 * d, 2.0 * d)
  }

  lemma SquaredOfAt(k0: real, k1: real, k2: real, t: real)
    ensures At(SquaredOf(k0, k1, k2), t) == SquaredAt(k0, k1, k2, 1.0 - t)
  {
    var a, b, d := Square(k0) + Square(k1) + Square(k2), k0 * k1 + k1 * k2, k0 * k2;
    SquaredParts(k0, k1, k2, 1.0 - t, a, b, d);
    hide SquaredOf, SquaredAt;
    SquaredAlgebra(a, b, d, t);
  }

  lemma SquaredParts(k0: real, k1: real, k2: real, c: real, a: real, b: real, d: real)
    requires a == Square(k0) + Square(k1) + Square(k2) && b == k0 * k1 + k1 * k2 && d == k0 * k2
    ensures SquaredOf(k0, k1, k2) == Quadratic(a + 2.0 * b + 2.0 * d, -(2.0 * b) - 4.0 * (2.0 * d), 2.0 * (2.0 * d))
    ensures SquaredAt(k0, k1, k2, c) == a + 2.0 * b * c + 2.0 * d * (2.0 * (c * c) - 1.0)
  {
  }

  lemma SquaredAlgebra(a: real, b: real, d: real, t: real)
    ensures (a + 2.0 * b + 2.0 * d) + (-(2.0 * b) - 4.0 * (2.0 * d)) * t + 2.0 * (2.0 * d) * (t * t)
            == a + 2.0 * b * (1.0 - t) + 2.0 * d * (2.0 * ((1.0 - t) * (1.0 - t)) - 1.0)
  {
  }

  const EPSILON: real := 0.000000001

  function DampQuadratic(c: Section): Quadratic {
    SquaredOf(1.0, c.a1, c.a2)
  }

  function Off(p: Quadratic, k: real, q: Quadratic): Quadratic {
    Quadratic(p.k0 - Product(k, q.k0), p.k1 - Product(k, q.k1), p.k2 - Product(k, q.k2))
  }

  function QuarticOff(p: Quartic, k: real, q: Quartic): Quartic {
    Quartic(p.k0 - Product(k, q.k0), p.k1 - Product(k, q.k1), p.k2 - Product(k, q.k2), p.k3 - Product(k, q.k3),
            p.k4 - Product(k, q.k4))
  }

  function Share(k: real): real {
    EPSILON * k
  }

  function QuarterShare(k: real): real {
    EPSILON * k / 4.0
  }

  // A section's denominator as a quadratic in t, coefficient by coefficient.

  function D0(a1: real, a2: real): real {
    1.0 + a1 * a1 + a2 * a2 + 2.0 * (a1 + a1 * a2) + 2.0 * a2
  }

  function D1(a1: real, a2: real): real {
    -2.0 * (a1 + a1 * a2) - 8.0 * a2
  }

  function D2(a2: real): real {
    4.0 * a2
  }

  // v, coefficient by coefficient.

  function V0(v: real, m: real): real {
    v * (m * m)
  }

  function V1(v: real, m: real): real {
    -2.0 * (v * m)
  }

  function Slope(v: real, m: real): real {
    2.0 * (v * (1.0 - m))
  }

  /** The middle section's poles are those of u + v, to EPSILON. */
  predicate MiddleIsClose(a1: real, a2: real, v: real, m: real, k: real) {
    && Abs(D0(a1, a2) - Product(k, V0(v, m))) <= Product(Share(k), V0(v, m))
    && Abs(D1(a1, a2) - Product(k, 2.0 + V1(v, m))) + 2.0 * Abs(D2(a2) - Product(k, v - 1.0))
       <= Product(Share(k), Slope(v, m))
  }

  // u^2 - u v + v^2, coefficient by coefficient, from those of v.

  function P0(w0: real): real {
    Product(w0, w0)
  }

  function P1(w0: real, w1: real): real {
    2.0 * Product(w0, w1) - 2.0 * w0
  }

  function P2(w0: real, w1: real, w2: real): real {
    4.0 - (2.0 * w1 - w0) + (2.0 * Product(w0, w2) + Product(w1, w1))
  }

  function P3(w1: real, w2: real): real {
    -4.0 - (2.0 * w2 - w1) + 2.0 * Product(w1, w2)
  }

  function P4(w2: real): real {
    1.0 + w2 + Product(w2, w2)
  }

  /** The outer sections' poles are together those of u^2 - u v + v^2, to EPSILON. */
  predicate OuterAreClose(a1: real, a2: real, c1: real, c2: real, v: real, m: real, k: real) {
    QuarticIsClose(D0(a1, a2), D1(a1, a2), D2(a2), D0(c1, c2), D1(c1, c2), D2(c2), V0(v, m), V1(v, m), v, Slope(v, m),
                   k, QuarterShare(k))
  }

  predicate QuarticIsClose(p0: real, p1: real, p2: real, q0: real, q1: real, q2: real, w0: real, w1: real, w2: real,
                           f1: real, k: real, share: real)
  {
    && Abs(Product(p0, q0) - Product(k, P0(w0))) <= Product(share, Product(w0, w0))
    && Abs(Product(p0, q1) + Product(p1, q0) - Product(k, P1(w0, w1))) <= Product(share, 2.0 * Product(w0, f1))
    && Abs(Product(p0, q2) + Product(p1, q1) + Product(p2, q0) - Product(k, P2(w0, w1, w2)))
       + 2.0 * Abs(Product(p1, q2) + Product(p2, q1) - Product(k, P3(w1, w2)))
       + 4.0 * Abs(Product(p2, q2) - Product(k, P4(w2))) <= Product(share, Product(f1, f1))
  }

  lemma DampQuadraticIs(c: Section)
    ensures DampQuadratic(c) == Quadratic(D0(c.a1, c.a2), D1(c.a1, c.a2), D2(c.a2))
  {
  }

  lemma DampQuadraticAt(c: Section, t: real)
    ensures At(DampQuadratic(c), t) == Damp(c, 1.0 - t)
  {
    SquaredOfAt(1.0, c.a1, c.a2, t);
    hide At, SquaredOf, SquaredAt;
  }

  lemma LinearIs(s: Shape)
    ensures LinearOf(s) == Quadratic(V0(s.turn, s.centre), 2.0 + V1(s.turn, s.centre), s.turn - 1.0)
  {
  }

  lemma FloorsAre(s: Shape)
    ensures Floor0(s) == V0(s.turn, s.centre) && Floor1(s) == Slope(s.turn, s.centre)
  {
  }

  lemma MiddleOff(c: Section, s: Shape, k: real)
    requires MiddleIsClose(c.a1, c.a2, s.turn, s.centre, k)
    ensures var e := Off(DampQuadratic(c), k, LinearOf(s));
            && Abs(e.k0) <= Product(Share(k), Floor0(s))
            && Abs(e.k1) + 2.0 * Abs(e.k2) <= Product(Share(k), Floor1(s))
  {
    hide DampQuadratic, LinearOf, Abs, Share, Floor0, Floor1, D0, D1, D2, V0, V1, Slope, Product;
    DampQuadraticIs(c);
    LinearIs(s);
    FloorsAre(s);
  }

  lemma AwayIs(s: Shape)
    ensures AwayOf(s) == Quadratic(V0(s.turn, s.centre), V1(s.turn, s.centre), s.turn)
  {
  }

  lemma SineTimes(sine: Quadratic, w: Quadratic)
    requires sine == Quadratic(0.0, 2.0, -1.0)
    ensures Multiplied(sine, w) == Quartic(0.0, 2.0 * w.k0, 2.0 * w.k1 - w.k0, 2.0 * w.k2 - w.k1, -w.k2)
  {
    hide Product;
    ByConstants(sine.k0, sine.k1, sine.k2, w.k0);
    ByConstants(sine.k0, sine.k1, sine.k2, w.k1);
    ByConstants(sine.k0, sine.k1, sine.k2, w.k2);
  }

  lemma ByConstants(a: real, b: real, c: real, x: real)
    requires a == 0.0 && b == 2.0 && c == -1.0
    ensures Product(a, x) == 0.0 && Product(b, x) == 2.0 * x && Product(c, x) == -x
  {
  }

  lemma TimesItself(w: Quadratic)
    ensures Multiplied(w, w)
            == Quartic(Product(w.k0, w.k0), 2.0 * Product(w.k0, w.k1), 2.0 * Product(w.k0, w.k2) + Product(w.k1, w.k1),
                       2.0 * Product(w.k1, w.k2), Product(w.k2, w.k2))
  {
    assert Product(w.k1, w.k0) == Product(w.k0, w.k1) && Product(w.k2, w.k0) == Product(w.k0, w.k2);
    assert Product(w.k2, w.k1) == Product(w.k1, w.k2);
    hide Product;
  }

  lemma PairedIsQuartic(w: Quadratic)
    ensures PairedOf(w)
            == Quartic(P0(w.k0), P1(w.k0, w.k1), P2(w.k0, w.k1, w.k2), P3(w.k1, w.k2), P4(w.k2))
  {
    hide Multiplied, Product;
    SineTimes(SINE, w);
    TimesItself(w);
  }

  lemma QuarticsOff(p: Quadratic, q: Quadratic, w: Quadratic, f1: real, k: real, share: real)
    requires QuarticIsClose(p.k0, p.k1, p.k2, q.k0, q.k1, q.k2, w.k0, w.k1, w.k2, f1, k, share)
    ensures var e := QuarticOff(Multiplied(p, q), k, PairedOf(w));
            && Abs(e.k0) <= Product(share, Product(w.k0, w.k0)) && Abs(e.k1) <= Product(share, 2.0 * Product(w.k0, f1))
            && Abs(e.k2) + 2.0 * Abs(e.k3) + 4.0 * Abs(e.k4) <= Product(share, Product(f1, f1))
  {
    hide Abs, Product, P0, P1, P2, P3, P4, PairedOf;
    PairedIsQuartic(w);
  }

  lemma OuterIsQuartic(c: Section, d: Section, s: Shape, k: real)
    requires OuterAreClose(c.a1, c.a2, d.a1, d.a2, s.turn, s.centre, k)
    ensures var p, q, w := DampQuadratic(c), DampQuadratic(d), AwayOf(s);
            QuarticIsClose(p.k0, p.k1, p.k2, q.k0, q.k1, q.k2, w.k0, w.k1, w.k2, Floor1(s), k, QuarterShare(k))
    ensures AwayOf(s).k0 == Floor0(s)
  {
    hide DampQuadratic, QuarterShare, Floor0, Floor1, D0, D1, D2, V0, V1, Slope, AwayOf, QuarticIsClose;
    DampQuadraticIs(c);
    DampQuadraticIs(d);
    AwayIs(s);
    FloorsAre(s);
  }

  lemma Spread(p: real, k: real, q: real, x: real)
    ensures (p - k * q) * x == p * x - k * (q * x)
  {
  }

  lemma QuadraticLess(p: Quadratic, k: real, q: Quadratic, t: real)
    ensures At(Off(p, k, q), t) == At(p, t) - Product(k, At(q, t))
  {
    hide Square;
    Spread(p.k1, k, q.k1, t);
    Spread(p.k2, k, q.k2, Square(t));
    Distributes(k, q.k0, q.k1, q.k2, 1.0, t, Square(t));
  }

  lemma QuarticLess(p: Quartic, k: real, q: Quartic, t: real)
    ensures QuarticAt(QuarticOff(p, k, q), t) == QuarticAt(p, t) - Product(k, QuarticAt(q, t))
  {
    QuarticLessWith(p, k, q, t, Square(t), Product(t, Square(t)), Square(Square(t)));
  }

  lemma QuarticLessWith(p: Quartic, k: real, q: Quartic, t: real, t2: real, t3: real, t4: real)
    ensures Parabola(QuarticOff(p, k, q).k0, QuarticOff(p, k, q).k1, QuarticOff(p, k, q).k2, t, t2)
            + Higher(QuarticOff(p, k, q).k3, QuarticOff(p, k, q).k4, t3, t4)
            == Parabola(p.k0, p.k1, p.k2, t, t2) + Higher(p.k3, p.k4, t3, t4)
               - Product(k, Parabola(q.k0, q.k1, q.k2, t, t2) + Higher(q.k3, q.k4, t3, t4))
  {
    Spread(p.k1, k, q.k1, t);
    Spread(p.k2, k, q.k2, t2);
    Spread(p.k3, k, q.k3, t3);
    Spread(p.k4, k, q.k4, t4);
    Shared(k, q.k0, q.k1 * t, q.k2 * t2, q.k3 * t3, q.k4 * t4);
  }

  lemma Shared(k: real, a: real, b: real, c: real, d: real, e: real)
    ensures k * (a + b + c + (d + e)) == k * a + k * b + k * c + k * d + k * e
  {
  }

  lemma MiddleStaysClose(c: Section, s: Shape, k: real, t: real)
    requires IsShape(s) && 0.0 <= t <= 2.0 && 0.0 < k
    requires MiddleIsClose(c.a1, c.a2, s.turn, s.centre, k)
    ensures Abs(Damp(c, 1.0 - t) - Product(k, Linear(s, t))) <= Product(Share(k), Linear(s, t))
  {
    var e := Off(DampQuadratic(c), k, LinearOf(s));
    hide MiddleIsClose, At, SquaredOf, SquaredAt, LinearOf, Linear, Floor0, Floor1, IsShape, Abs, Line, Square, Off;
    hide Product, DampQuadratic, Share, Parabola;
    ShareIsPositive(k);
    MiddleOff(c, s, k);
    DampQuadraticAt(c, t);
    LinearAt(s, t);
    QuadraticLess(DampQuadratic(c), k, LinearOf(s), t);
    FloorIsBelow(s, t);
    QuadraticBelow(e.k0, e.k1, e.k2, Abs(e.k1), Abs(e.k2), Product(Share(k), Floor0(s)), Product(Share(k), Floor1(s)),
                   t, Square(t));
    ScaledLine(Share(k), Floor0(s), Floor1(s), t, Linear(s, t));
    AtIs(e, t);
  }

  lemma ShareIsPositive(k: real)
    requires 0.0 < k
    ensures 0.0 < Share(k) && 0.0 < QuarterShare(k) && 4.0 * QuarterShare(k) == Share(k)
  {
  }

  lemma AtIs(p: Quadratic, t: real)
    ensures At(p, t) == Parabola(p.k0, p.k1, p.k2, t, Square(t))
  {
  }

  lemma QuarticAtIs(p: Quartic, t: real)
    ensures QuarticAt(p, t)
            == Parabola(p.k0, p.k1, p.k2, t, Square(t)) + Higher(p.k3, p.k4, Product(t, Square(t)), Square(Square(t)))
  {
  }

  lemma ScaledLine(f: real, a: real, b: real, t: real, l: real)
    requires 0.0 < f && Line(a, b, t) <= l
    ensures Line(Product(f, a), Product(f, b), t) <= Product(f, l)
  {
    ProductIsNonNegative(f, l - (a + b * t));
    assert (f * b) * t == f * (b * t);
  }

  lemma OuterStayClose(c: Section, d: Section, s: Shape, k: real, t: real)
    requires IsShape(s) && 0.0 <= t <= 2.0 && 0.0 < k
    requires OuterAreClose(c.a1, c.a2, d.a1, d.a2, s.turn, s.centre, k)
    ensures Abs(Product(Damp(c, 1.0 - t), Damp(d, 1.0 - t)) - Product(k, Paired(s, t)))
            <= Product(Share(k), Paired(s, t))
  {
    var e := QuarticOff(Multiplied(DampQuadratic(c), DampQuadratic(d)), k, PairedOf(AwayOf(s)));
    hide Damp, OuterAreClose, At, QuarticAt, Multiplied, SquaredOf, SquaredAt, PairedOf, Paired, Floor0, Floor1;
    hide IsShape, Abs, Square, Line, Parabola, Higher, Product, QuarticOff, Share, QuarterShare, DampQuadratic;
    hide QuarticIsClose, AwayOf;
    ShareIsPositive(k);
    OuterIsQuartic(c, d, s, k);
    QuarticsOff(DampQuadratic(c), DampQuadratic(d), AwayOf(s), Floor1(s), k, QuarterShare(k));
    DampQuadraticAt(c, t);
    DampQuadraticAt(d, t);
    MultipliedAt(DampQuadratic(c), DampQuadratic(d), t);
    PairedOfShape(s, t);
    QuarticLess(Multiplied(DampQuadratic(c), DampQuadratic(d)), k, PairedOf(AwayOf(s)), t);
    ShapeIsPositive(s, t);
    QuarticBelow(e.k0, e.k1, e.k2, e.k3, e.k4, Abs(e.k2), Abs(e.k3), Abs(e.k4),
                 Product(QuarterShare(k), Product(Floor0(s), Floor0(s))),
                 Product(QuarterShare(k), 2.0 * Product(Floor0(s), Floor1(s))),
                 Product(QuarterShare(k), Product(Floor1(s), Floor1(s))),
                 t, Square(t), Product(t, Square(t)), Square(Square(t)));
    SquaredLine(QuarterShare(k), Floor0(s), Floor1(s), t, Paired(s, t), Share(k));
    QuarticAtIs(e, t);
  }

  lemma SquaredLine(f: real, a: real, b: real, t: real, p: real, f4: real)
    requires 0.0 < f && f4 == 4.0 * f && Square(Line(a, b, t)) <= 4.0 * p
    ensures Parabola(Product(f, Product(a, a)), Product(f, 2.0 * Product(a, b)), Product(f, Product(b, b)), t,
                     Square(t)) <= Product(f4, p)
  {
    SquareOfLine(f, a, b, t);
    ProductIsNonNegative(f, 4.0 * p - Square(Line(a, b, t)));
  }

  lemma SquareOfLine(f: real, a: real, b: real, t: real)
    ensures f * (a * a) + (f * (2.0 * (a * b))) * t + (f * (b * b)) * (t * t) == f * ((a + b * t) * (a + b * t))
  {
  }

  // ---------- The numerators ----------

  /** g (1 + z)^2, up to a rounding of its middle tap, for a gain g that suits the denominators' scales. */
  predicate FirstIsClose(g: real, h: real, v: real, m: real, k: real) {
    && 64.0 * Abs(g * (h - 2.0 * g)) <= SLACK * (2.0 * (v * (1.0 - m)))
    && 16.0 * ((h - 2.0 * g) * (h - 2.0 * g)) <= SLACK * (2.0 * (v * (1.0 - m)) * (2.0 * (v * (1.0 - m))))
    && Abs(64.0 * (g * g) - k) + 8.0 * SLACK <= EPSILON * k
  }

  /** The other numerators are 1 - z^2 and (1 - z)^2. */
  predicate NumeratorsAreClose(cs: seq<Section>, s: Shape, k: real)
    requires |cs| == 3
  {
    && cs[0].b2 == cs[0].b0 && FirstIsClose(cs[0].b0, cs[0].b1, s.turn, s.centre, k)
    && cs[1].b0 == 1.0 && cs[1].b1 == 0.0 && cs[1].b2 == -1.0
    && cs[2].b0 == 1.0 && cs[2].b1 == -2.0 && cs[2].b2 == 1.0
  }

  const SLACK: real := 0.00000000001

  lemma OuterNumerators(t: real)
    ensures SquaredAt(1.0, 0.0, -1.0, 1.0 - t) == 4.0 * SineSquared(t)
    ensures SquaredAt(1.0, -2.0, 1.0, 1.0 - t) == 4.0 * Square(t)
  {
  }

  lemma FirstNumerator(g: real, off: real, t: real)
    ensures SquaredAt(g, 2.0 * g + off, g, 1.0 - t)
            == 4.0 * Square(g) * Square(2.0 - t) + 4.0 * Product(g, off) * (2.0 - t) + Square(off)
  {
    FirstAlgebra(g * g, g * off, off * off, t);
    assert Square(2.0 * g + off) == 4.0 * (g * g) + 4.0 * (g * off) + off * off;
    assert g * (2.0 * g + off) == 2.0 * (g * g) + g * off;
  }

  lemma FirstAlgebra(gg: real, go: real, oo: real, t: real)
    ensures gg + (4.0 * gg + 4.0 * go + oo) + gg + 2.0 * ((2.0 * gg + go) + (2.0 * gg + go)) * (1.0 - t)
            + 2.0 * gg * (2.0 * ((1.0 - t) * (1.0 - t)) - 1.0)
            == 4.0 * gg * Square(2.0 - t) + 4.0 * go * (2.0 - t) + oo
  {
  }

  lemma StrengthParts(first: real, second: real, third: real, gg: real, go: real, oo: real, t: real, u: real)
    requires first == 4.0 * gg * Square(2.0 - t) + 4.0 * go * (2.0 - t) + oo && u == t * (2.0 - t)
    requires second == 4.0 * u && third == 4.0 * Square(t)
    ensures Product(Product(first, second), third)
            == 64.0 * Product(gg, Cube(u)) + 64.0 * Product(go, Product(Square(u), t))
               + 16.0 * Product(oo, Product(u, Square(t)))
  {
    PowersOfSine(t, u);
    Reordered(first, second, third, u, Square(t));
    hide Square, Product, Cube;
    SplitThree(gg, go, oo, Square(2.0 - t), 2.0 - t, Product(u, Square(t)), Cube(u), Product(Square(u), t), first);
  }

  lemma PowersOfSine(t: real, u: real)
    requires u == t * (2.0 - t)
    ensures Square(2.0 - t) * Product(u, Square(t)) == Cube(u)
    ensures (2.0 - t) * Product(u, Square(t)) == Product(Square(u), t)
  {
    assert u * (t * t) * (2.0 - t) == u * u * t;
    assert u * u * t * (2.0 - t) == u * u * u;
  }

  lemma Reordered(x: real, y: real, z: real, u: real, t2: real)
    requires y == 4.0 * u && z == 4.0 * t2
    ensures Product(Product(x, y), z) == 16.0 * (x * Product(u, t2))
  {
    assert (x * (4.0 * u)) * (4.0 * t2) == 16.0 * (x * (u * t2));
  }

  lemma SplitThree(gg: real, go: real, oo: real, a: real, b: real, m: real, am: real, bm: real, first: real)
    requires a * m == am && b * m == bm && first == 4.0 * gg * a + 4.0 * go * b + oo
    ensures 16.0 * (first * m) == 64.0 * Product(gg, am) + 64.0 * Product(go, bm) + 16.0 * Product(oo, m)
  {
    assert (gg * a) * m == gg * am && (go * b) * m == go * bm;
  }

  // ---------- The squared gain ----------

  /** u^3 + v^3. */
  function Mass(s: Shape, t: real): real {
    Linear(s, t) * Paired(s, t)
  }

  lemma NumeratorError(go: real, oo: real, kk: real, f: real, u: real, t: real, l: real, m: real, u3: real,
                       x: real, y: real)
    requires 0.0 < f && 0.0 <= u <= l && 0.0 <= t && f * t <= l && Cube(l) <= 4.0 * m && 0.0 <= u3 <= m
    requires 64.0 * Abs(go) <= SLACK * f && 0.0 <= oo && 16.0 * oo <= SLACK * Square(f)
    requires x == 64.0 * Product(go, Product(Square(u), t)) && y == 16.0 * Product(oo, Product(u, Square(t)))
    ensures Abs(Product(kk, u3) + x + y) <= Product(Abs(kk) + 8.0 * SLACK, m)
  {
    ScaledPowers(f, u, t, l);
    SquareIsPositive(f);
    assert Abs(oo) == oo;
    TermUpTo(kk, u3, m);
    hide Cube, Square, Abs;
    ErrorTerm(go, 64.0, f, Product(Square(u), t), m, x);
    ErrorTerm(oo, 16.0, Square(f), Product(u, Square(t)), m, y);
    hide Product;
    ThreeErrors(Product(kk, u3), x, y, Abs(kk), m);
  }

  lemma ThreeErrors(x: real, y: real, z: real, a: real, m: real)
    requires Abs(x) <= Product(a, m) && Abs(y) <= 4.0 * SLACK * m && Abs(z) <= 4.0 * SLACK * m
    ensures Abs(x + y + z) <= Product(a + 8.0 * SLACK, m)
  {
    hide Abs;
    Gathered(a, 4.0 * SLACK, 4.0 * SLACK, m);
    AbsSum(x, y, a * m, 4.0 * SLACK * m);
    AbsSum(x + y, z, a * m + 4.0 * SLACK * m, 4.0 * SLACK * m);
  }

  lemma ScaledPowers(f: real, u: real, t: real, l: real)
    requires 0.0 < f && 0.0 <= u <= l && 0.0 <= t && f * t <= l
    ensures 0.0 <= Product(Square(u), t) && Product(f, Product(Square(u), t)) <= Cube(l)
    ensures 0.0 <= Product(u, Square(t)) && Product(Square(f), Product(u, Square(t))) <= Cube(l)
  {
    PositiveOrZero(f, t);
    SquareIsNonNegative(u);
    SquareIsNonNegative(t);
    PositiveOrZero(Square(u), t);
    PositiveOrZero(u, Square(t));
    Regroup(f, u, t);
    assert Product(f, t) <= l;
    hide Product, Square, Cube;
    ThreeUpTo(u, u, Product(f, t), l);
    ThreeUpTo(u, Product(f, t), Product(f, t), l);
  }

  lemma Regroup(f: real, u: real, t: real)
    ensures Product(f, Product(Square(u), t)) == Product(Product(u, u), Product(f, t))
    ensures Product(Square(f), Product(u, Square(t))) == Product(Product(u, Product(f, t)), Product(f, t))
  {
    assert f * ((u * u) * t) == (u * u) * (f * t);
    assert (f * f) * (u * (t * t)) == (u * (f * t)) * (f * t);
  }

  lemma PositiveOrZero(x: real, y: real)
    requires 0.0 <= x && 0.0 <= y
    ensures 0.0 <= Product(x, y)
  {
    ProductIsNonNegative(x, y);
  }

  lemma ThreeUpTo(x: real, y: real, z: real, l: real)
    requires 0.0 <= x <= l && 0.0 <= y <= l && 0.0 <= z <= l
    ensures Product(Product(x, y), z) <= Cube(l)
  {
    ProductIsNonNegative(x, l - y);
    ProductIsNonNegative(l - x, l);
    ProductIsNonNegative(x, y);
    ProductIsNonNegative(x * y, l - z);
    ProductIsNonNegative(l * l - x * y, l);
  }

  lemma ErrorTerm(k: real, n: real, f: real, p: real, m: real, x: real)
    requires 0.0 < f && 0.0 < n && n * Abs(k) <= SLACK * f && 0.0 <= p && Product(f, p) <= 4.0 * m
    requires x == n * Product(k, p)
    ensures Abs(x) <= 4.0 * SLACK * m
  {
    Term(k, p);
    ProductIsNonNegative(SLACK * f - n * Abs(k), p);
    assert (n * Abs(k)) * p == n * (Abs(k) * p);
    assert (SLACK * f) * p == SLACK * (f * p);
    ScaledAbs(n, k * p);
  }

  lemma ScaledAbs(n: real, x: real)
    requires 0.0 < n
    ensures Abs(n * x) == n * Abs(x)
  {
  }

  function FirstError(g: real, off: real, t: real): real {
    64.0 * Product(Product(g, off), Product(Square(SineSquared(t)), t))
  }

  function SecondError(off: real, t: real): real {
    16.0 * Product(Square(off), Product(SineSquared(t), Square(t)))
  }

  lemma StrengthSplits(cs: seq<Section>, g: real, off: real, t: real)
    requires |cs| == 3 && cs[0].b0 == cs[0].b2 == g && cs[0].b1 == 2.0 * g + off
    requires cs[1].b0 == 1.0 && cs[1].b1 == 0.0 && cs[1].b2 == -1.0
    requires cs[2].b0 == 1.0 && cs[2].b1 == -2.0 && cs[2].b2 == 1.0
    ensures StrengthOf(cs, 1.0 - t)
            == 64.0 * Product(Square(g), Cube(SineSquared(t))) + FirstError(g, off, t) + SecondError(off, t)
  {
    ThreeFactors(cs, 1.0 - t);
    FirstNumerator(g, off, t);
    OuterNumerators(t);
    hide SquaredAt, StrengthOf, Cube, Product, Square;
    StrengthParts(Strength(cs[0], 1.0 - t), Strength(cs[1], 1.0 - t), Strength(cs[2], 1.0 - t), Square(g),
                  Product(g, off), Square(off), t, SineSquared(t));
  }

  lemma FirstFacts(g: real, h: real, s: Shape, k: real, off: real)
    requires FirstIsClose(g, h, s.turn, s.centre, k) && off == h - 2.0 * g
    ensures 64.0 * Abs(Product(g, off)) <= SLACK * Floor1(s) && 0.0 <= Square(off)
    ensures 16.0 * Square(off) <= SLACK * Square(Floor1(s))
    ensures Abs(64.0 * Square(g) - k) + 8.0 * SLACK <= Share(k)
  {
    SquareIsNonNegative(off);
  }

  lemma StrengthIsClose(cs: seq<Section>, s: Shape, k: real, t: real)
    requires |cs| == 3 && IsShape(s) && 0.0 <= t <= 2.0 && NumeratorsAreClose(cs, s, k)
    ensures Abs(StrengthOf(cs, 1.0 - t) - Product(k, Cube(SineSquared(t)))) <= Product(Share(k), Mass(s, t))
  {
    var g, off := cs[0].b0, cs[0].b1 - 2.0 * cs[0].b0;
    StrengthSplits(cs, g, off, t);
    FirstFacts(g, cs[0].b1, s, k, off);
    hide FirstIsClose, StrengthOf, Product, Square, Cube, SineSquared, Floor1, Mass, IsShape, Share, Abs;
    NumeratorsMiss(Square(g), Product(g, off), Square(off), k, s, t, StrengthOf(cs, 1.0 - t), FirstError(g, off, t),
                   SecondError(off, t));
  }

  lemma NumeratorsMiss(gg: real, go: real, oo: real, k: real, s: Shape, t: real, n: real, x: real, y: real)
    requires IsShape(s) && 0.0 <= t <= 2.0
    requires 64.0 * Abs(go) <= SLACK * Floor1(s) && 0.0 <= oo && 16.0 * oo <= SLACK * Square(Floor1(s))
    requires Abs(64.0 * gg - k) + 8.0 * SLACK <= Share(k) && n == 64.0 * Product(gg, Cube(SineSquared(t))) + x + y
    requires x == 64.0 * Product(go, Product(Square(SineSquared(t)), t))
    requires y == 16.0 * Product(oo, Product(SineSquared(t), Square(t)))
    ensures Abs(n - Product(k, Cube(SineSquared(t)))) <= Product(Share(k), Mass(s, t))
  {
    MassFacts(s, t);
    hide Linear, Mass, Cube, SineSquared, Floor1, Square, Product, IsShape, Share, Abs;
    NumeratorsMissBy(gg, go, oo, k, Floor1(s), SineSquared(t), t, Linear(s, t), Mass(s, t), n, x, y, Share(k));
  }

  lemma NumeratorsMissBy(gg: real, go: real, oo: real, k: real, f: real, u: real, t: real, l: real, m: real,
                         n: real, x: real, y: real, share: real)
    requires 0.0 < f && 0.0 <= u <= l && 0.0 <= t && f * t <= l && Cube(l) <= 4.0 * m && 0.0 <= Cube(u) <= m
    requires 64.0 * Abs(go) <= SLACK * f && 0.0 <= oo && 16.0 * oo <= SLACK * Square(f)
    requires Abs(64.0 * gg - k) + 8.0 * SLACK <= share && n == 64.0 * Product(gg, Cube(u)) + x + y
    requires x == 64.0 * Product(go, Product(Square(u), t)) && y == 16.0 * Product(oo, Product(u, Square(t)))
    ensures Abs(n - Product(k, Cube(u))) <= Product(share, m)
  {
    hide Cube, Square, Product, Abs;
    NumeratorError(go, oo, 64.0 * gg - k, f, u, t, l, m, Cube(u), x, y);
    TotalError(gg, k, Cube(u), m, share, n, x, y, Abs(64.0 * gg - k));
  }

  lemma TotalError(gg: real, k: real, u3: real, m: real, share: real, n: real, x: real, y: real, a: real)
    requires n == 64.0 * Product(gg, u3) + x + y && a + 8.0 * SLACK <= share && 0.0 <= m
    requires Abs(Product(64.0 * gg - k, u3) + x + y) <= Product(a + 8.0 * SLACK, m)
    ensures Abs(n - Product(k, u3)) <= Product(share, m)
  {
    ProductIsNonNegative(share - (a + 8.0 * SLACK), m);
    assert n - k * u3 == (64.0 * gg - k) * u3 + x + y;
  }

  lemma MassFacts(s: Shape, t: real)
    requires IsShape(s) && 0.0 <= t <= 2.0
    ensures 0.0 < Floor1(s) && 0.0 <= SineSquared(t) <= Linear(s, t) && Floor1(s) * t <= Linear(s, t)
    ensures 0.0 < Mass(s, t) && Cube(Linear(s, t)) <= 4.0 * Mass(s, t)
    ensures 0.0 <= Cube(SineSquared(t)) <= Mass(s, t)
    ensures Mass(s, t) == Cube(SineSquared(t)) + Cube(Away(s, t))
  {
    FloorIsBelow(s, t);
    FloorLine(Floor0(s), Floor1(s), t, Linear(s, t));
    ShapeIsPositive(s, t);
    PairedIs(s, t);
    MassIs(s, t);
    hide Floor0, Floor1, IsShape, SineSquared, Away, Square, Cube, Linear, Paired, Mass, Product;
    MassOf(SineSquared(t), Away(s, t), Linear(s, t), Paired(s, t));
  }

  lemma MassIs(s: Shape, t: real)
    ensures Mass(s, t) == Product(Linear(s, t), Paired(s, t))
  {
    hide Linear, Paired;
  }

  lemma MassOf(u: real, v: real, l: real, p: real)
    requires 0.0 <= u && 0.0 <= v && 0.0 < l && 0.0 < p && l == u + v && p == Square(u) - Product(u, v) + Square(v)
    ensures 0.0 < Product(l, p) == Cube(u) + Cube(v) && 0.0 <= Cube(u) && 0.0 <= Cube(v)
    ensures Cube(l) <= 4.0 * Product(l, p)
  {
    CubesFactor(u, v);
    ProductOfPositives(l, p, l * p);
    hide Cube, Square;
    CubeIsNonNegative(u);
    CubeIsNonNegative(v);
    LinearCubed(l, p);
  }

  lemma FloorLine(a: real, b: real, t: real, l: real)
    requires 0.0 < a && Line(a, b, t) <= l
    ensures b * t <= l
  {
  }

  lemma LinearCubed(l: real, p: real)
    requires 0.0 < l && Square(l) <= 4.0 * p
    ensures Cube(l) <= 4.0 * (l * p)
  {
    ProductIsNonNegative(l, 4.0 * p - l * l);
  }

  lemma CubeIsNonNegative(x: real)
    requires 0.0 <= x
    ensures 0.0 <= Cube(x)
  {
    ProductIsNonNegative(x, x);
    ProductIsNonNegative(x * x, x);
  }

  lemma ThreeFactors(cs: seq<Section>, c: real)
    requires |cs| == 3
    ensures StrengthOf(cs, c) == Product(Product(Strength(cs[0], c), Strength(cs[1], c)), Strength(cs[2], c))
    ensures DampOf(cs, c) == Product(Damp(cs[1], c), Product(Damp(cs[0], c), Damp(cs[2], c)))
  {
    hide Strength, Damp;
    assert cs[1..][0] == cs[1] && cs[1..][1..] == cs[2..] && cs[2..][0] == cs[2] && cs[2..][1..] == [];
    assert StrengthOf(cs[2..], c) == Strength(cs[2], c) * 1.0;
    assert StrengthOf(cs[1..], c) == Strength(cs[1], c) * StrengthOf(cs[2..], c);
    assert DampOf(cs[2..], c) == Damp(cs[2], c) * 1.0;
    assert DampOf(cs[1..], c) == Damp(cs[1], c) * DampOf(cs[2..], c);
  }

  /** How far from its shape a design's squared gain may be, in units of full scale. */
  const TOLERANCE: real := 0.00000001

  lemma NearOne(a: real, b: real, ab: real)
    requires Abs(a) <= EPSILON && Abs(b) <= EPSILON && ab == Product(1.0 + a, 1.0 + b)
    ensures Abs(ab - 1.0) <= 3.0 * EPSILON
  {
    assert ab - 1.0 == a + b + a * b;
    Term(a, Abs(b));
    SmallProduct(a, b);
  }

  lemma SmallProduct(a: real, b: real)
    requires Abs(a) <= EPSILON && Abs(b) <= EPSILON
    ensures Abs(a * b) <= EPSILON
  {
    ProductIsNonNegative(EPSILON - a, 1.0 - b);
    ProductIsNonNegative(EPSILON + a, 1.0 + b);
    ProductIsNonNegative(EPSILON - a, 1.0 + b);
    ProductIsNonNegative(EPSILON + a, 1.0 - b);
  }

  lemma QuotientIsClose(g: real, ab: real, x: real, y: real)
    requires 0.0 <= y <= 1.0 && Product(g, ab) == x && Abs(x - y) <= EPSILON && Abs(ab - 1.0) <= 3.0 * EPSILON
    ensures Abs(g - y) <= TOLERANCE
  {
    AtMost(y, ab - 1.0, 3.0 * EPSILON);
    Apart(g, ab, y);
    hide Product;
    Remains(Product(g - y, ab), x - y, Product(y, ab - 1.0));
    SmallFactor(g - y, ab);
  }

  lemma AtMost(y: real, e: real, bound: real)
    requires 0.0 <= y <= 1.0 && Abs(e) <= bound
    ensures Abs(Product(y, e)) <= bound
  {
    ProductIsNonNegative(y, bound - e);
    ProductIsNonNegative(y, bound + e);
    ProductIsNonNegative(1.0 - y, bound);
  }

  lemma Apart(g: real, ab: real, y: real)
    ensures Product(g - y, ab) == Product(g, ab) - y - Product(y, ab - 1.0)
  {
  }

  lemma Remains(d: real, e: real, w: real)
    requires d == e - w && Abs(e) <= EPSILON && Abs(w) <= 3.0 * EPSILON
    ensures Abs(d) <= 4.0 * EPSILON
  {
  }

  lemma SmallFactor(d: real, ab: real)
    requires Abs(Product(d, ab)) <= 4.0 * EPSILON && Abs(ab - 1.0) <= 3.0 * EPSILON
    ensures Abs(d) <= TOLERANCE
  {
    NotAbove(d, ab);
    assert Product(-d, ab) == -Product(d, ab);
    NotAbove(-d, ab);
  }

  lemma NotAbove(d: real, ab: real)
    requires Product(d, ab) <= 4.0 * EPSILON && 0.9 < ab
    ensures d <= TOLERANCE
  {
    if TOLERANCE < d {
      ProductIsNonNegative(d, ab - 0.9);
    }
  }

  // ---------- The designs ----------

  /** The centre and sharpness of each design. */
  function ShapeOf(samplingRate: int): Shape
    requires HasDesign(samplingRate)
  {
    match samplingRate
    case 40 => Shape(0.03956612989658003475, 0.39752317673594932850)
    case 80 => Shape(0.00970055653526362590, 0.39938256254723214264)
    case 100 => Shape(0.03046000145471523287, 0.18046897407944397557)
    case 200 => Shape(0.02770415024597715596, 0.09449242126367853461)
    case 500 => Shape(0.01677604843863257260, 0.04852983972519569477)
    case _ => Shape(0.10670493556824323504, 0.00962231763745130672)
  }

  function MiddleScale(samplingRate: int): real
    requires HasDesign(samplingRate)
  {
    match samplingRate
    case 40 => 2.78281996801028571293
    case 80 => 3.31487125937331220136
    case 100 => 2.89956792827472253049
    case 200 => 2.93988934970908546084
    case 500 => 3.13523649779309452975
    case _ => 2.27270226795977680597
  }

  function OuterScale(samplingRate: int): real
    requires HasDesign(samplingRate)
  {
    match samplingRate
    case 40 => 10.43141062199751599746
    case 80 => 13.02836726692751019273
    case 100 => 11.01931458555997219162
    case 200 => 11.22024580122710729906
    case 500 => 12.17655919069970437226
    case _ => 7.78768037252525086735
  }

  predicate DesignIsClose(samplingRate: int)
    requires HasDesign(samplingRate)
  {
    var b, a, s := Numerators(samplingRate), Denominators(samplingRate), ShapeOf(samplingRate);
    var k, k' := MiddleScale(samplingRate), OuterScale(samplingRate);
    && IsShape(s) && 0.0 < k && 0.0 < k'
    && MiddleIsClose(a[1].c1, a[1].c2, s.turn, s.centre, k)
    && OuterAreClose(a[0].c1, a[0].c2, a[2].c1, a[2].c2, s.turn, s.centre, k')
    && b[0].c2 == b[0].c0 && FirstIsClose(b[0].c0, b[0].c1, s.turn, s.centre, Product(k, k'))
    && b[1] == Taps(1.0, 0.0, -1.0) && b[2] == Taps(1.0, -2.0, 1.0)
  }

  lemma Close40()
    ensures MiddleIsClose(-0.19991468011753089, -0.6681786379192985,
                          0.03956612989658003475, 0.39752317673594932850, 2.78281996801028571293)
    ensures OuterAreClose(1.6484753179477056, 0.7338442895664062, -1.918993448174642, 0.9249638747061851,
                          0.03956612989658003475, 0.39752317673594932850, 10.43141062199751599746)
    ensures FirstIsClose(0.6734790477138246, 1.3469580954276492, 0.03956612989658003475, 0.39752317673594932850,
                         Product(2.78281996801028571293, 10.43141062199751599746))
  {
  }

  lemma Close80()
    ensures MiddleIsClose(-0.107703445133422, -0.8206787908286602,
                          0.00970055653526362590, 0.39938256254723214264, 3.31487125937331220136)
    ensures OuterAreClose(1.8322493755567273, 0.8551240027931296, -1.9600400538405367, 0.9615546705021153,
                          0.00970055653526362590, 0.39938256254723214264, 13.02836726692751019273)
    ensures FirstIsClose(0.8214636347864291, 1.6429272695728583, 0.00970055653526362590, 0.39938256254723214264,
                         Product(3.31487125937331220136, 13.02836726692751019273))
  {
  }

  lemma Close100()
    ensures MiddleIsClose(-0.24355497400690285, -0.7028117712403572,
                          0.03046000145471523287, 0.18046897407944397557, 2.89956792827472253049)
    ensures OuterAreClose(1.647913599700461, 0.7329342638536966, -1.9681772087145875, 0.9691512708948594,
                          0.03046000145471523287, 0.18046897407944397557, 11.01931458555997219162)
    ensures FirstIsClose(0.7065679722682777, 1.4131359445365554, 0.03046000145471523287, 0.18046897407944397557,
                         Product(2.89956792827472253049, 11.01931458555997219162))
  {
  }

  lemma Close200()
    ensures MiddleIsClose(-0.2584223068197652, -0.7146105533645492,
                          0.02770415024597715596, 0.09449242126367853461, 2.93988934970908546084)
    ensures OuterAreClose(1.6477316110123414, 0.7326354764117732, -1.9841892720072534, 0.9844343905181866,
                          0.02770415024597715596, 0.09449242126367853461, 11.22024580122710729906)
    ensures FirstIsClose(0.717921056028987, 1.435842112057974, 0.02770415024597715596, 0.09449242126367853461,
                         Product(2.93988934970908546084, 11.22024580122710729906))
  {
  }

  lemma Close500()
    ensures MiddleIsClose(-0.21821025731826826, -0.7706599046098872,
                          0.01677604843863257260, 0.04852983972519569477, 3.13523649779309452975)
    ensures OuterAreClose(1.7229839217145448, 0.7788929286543191, -1.9936996438745507, 0.9937390141821811,
                          0.01677604843863257260, 0.04852983972519569477, 12.17655919069970437226)
    ensures FirstIsClose(0.7723380978421511, 1.5446761956843023, 0.01677604843863257260, 0.04852983972519569477,
                         Product(3.13523649779309452975, 12.17655919069970437226))
  {
  }

  lemma Close1000()
    ensures MiddleIsClose(-0.48771304484689926, -0.5075484297228321,
                          0.10670493556824323504, 0.00962231763745130672, 2.27270226795977680597)
    ensures OuterAreClose(1.2505393112081853, 0.5459198908866272, -1.9968550812497046, 0.9968649403993294,
                          0.10670493556824323504, 0.00962231763745130672, 7.78768037252525086735)
    ensures FirstIsClose(0.5258784146071691, 1.0517568292143382, 0.10670493556824323504, 0.00962231763745130672,
                         Product(2.27270226795977680597, 7.78768037252525086735))
  {
  }

  lemma EveryDesignIsClose(samplingRate: int)
    requires HasDesign(samplingRate)
    ensures DesignIsClose(samplingRate)
  {
    hide MiddleIsClose, OuterAreClose, FirstIsClose;
    match samplingRate
    case 40 => Close40();
    case 80 => Close80();
    case 100 => Close100();
    case 200 => Close200();
    case 500 => Close500();
    case _ => Close1000();
  }
  // ---------- The squared gain ----------

  /** Its deviation from one, for a denominator within EPSILON of k l. */
  lemma Ratio(d: real, k: real, l: real) returns (a: real)
    requires 0.0 < k && 0.0 < l && Abs(d - Product(k, l)) <= Product(Share(k), l)
    ensures 0.0 < Product(k, l) && Product(1.0 + a, Product(k, l)) == d && Abs(a) <= EPSILON
  {
    var kl := Product(k, l);
    ProductOfPositives(k, l, kl);
    assert Product(Share(k), l) == EPSILON * kl by {
      ScaledThrough(k, l);
    }
    a := RatioOf(d, kl);
  }

  lemma ScaledThrough(k: real, l: real)
    ensures Product(Share(k), l) == EPSILON * Product(k, l)
  {
  }

  lemma RatioOf(d: real, kl: real) returns (a: real)
    requires 0.0 < kl && Abs(d - kl) <= EPSILON * kl
    ensures Product(1.0 + a, kl) == d && Abs(a) <= EPSILON
  {
    a := (d - kl) / kl;
    assert a * kl == d - kl;
    if EPSILON < a {
      ProductIsPositive(a - EPSILON, kl);
    }
    if a < -EPSILON {
      ProductIsPositive(-EPSILON - a, kl);
    }
  }

  function Over(n: real, d: real): real
    requires d != 0.0
  {
    n / d
  }

  lemma PositiveProduct(x: real, y: real)
    requires 0.0 < x && 0.0 < y
    ensures 0.0 < Product(x, y)
  {
    ProductOfPositives(x, y, Product(x, y));
  }

  lemma QuotientBetween(u: real, m: real)
    requires 0.0 <= u <= m && 0.0 < m
    ensures 0.0 <= Over(u, m) <= 1.0 && Product(Over(u, m), m) == u
  {
    var y := Over(u, m);
    assert y * m == u;
    if y < 0.0 {
      ProductIsPositive(-y, m);
    }
    if 1.0 < y {
      ProductIsPositive(y - 1.0, m);
    }
  }

  lemma QuotientsApart(n: real, kk: real, m: real, u: real, km: real)
    requires 0.0 < m && 0.0 < kk && km == Product(kk, m) && 0.0 < km
    requires Abs(n - Product(kk, u)) <= Product(Share(kk), m)
    ensures Abs(Over(n, km) - Over(u, m)) <= EPSILON
  {
    var x, y := Over(n, km), Over(u, m);
    assert y * m == u && x * km == n;
    ScaledThrough(kk, m);
    TermsOver(x, y, kk, m, km, u, n);
    hide Product;
    var e := RatioOf(km + (n - Product(kk, u)), km);
    assert Product(x - y, km) == Product(e, km) by {
      assert Product(1.0 + e, km) == Product(e, km) + km by {
        OneMore(e, km);
      }
    }
    CancelledProducts(x - y, e, km);
  }

  lemma OneMore(e: real, km: real)
    ensures Product(1.0 + e, km) == Product(e, km) + km
  {
  }

  lemma CancelledProducts(u: real, v: real, k: real)
    requires 0.0 < k && Product(u, k) == Product(v, k)
    ensures u == v
  {
    Cancelled(k, u, v);
  }

  lemma TermsOver(x: real, y: real, kk: real, m: real, km: real, u: real, n: real)
    requires km == Product(kk, m) && y * m == u && x * km == n
    ensures Product(x - y, km) == n - Product(kk, u)
  {
    assert y * (kk * m) == kk * (y * m);
  }

  lemma Rearranged(a: real, x: real, b: real, y: real)
    ensures Product(Product(a, x), Product(b, y)) == Product(Product(a, b), Product(x, y))
  {
    assert (a * x) * (b * y) == (a * b) * (x * y);
  }

  lemma GainTimes(g: real, d: real, ab: real, km: real, n: real, x: real)
    requires 0.0 < km && Product(ab, km) == d && Product(g, d) == n && Product(x, km) == n
    ensures Product(g, ab) == x
  {
    assert Product(Product(g, ab), km) == Product(g, d) by {
      assert (g * ab) * km == g * (ab * km);
    }
    hide Product;
    CancelledProducts(Product(g, ab), x, km);
  }

  lemma Quotient(n: real, d: real)
    requires d != 0.0
    ensures Product(Over(n, d), d) == n
  {
  }

  /** Denominators and numerator close to their shape give a quotient close to it. */
  lemma QuotientsMeet(d1: real, q: real, n: real, k: real, k': real, l: real, p: real, u: real)
    requires 0.0 < k && 0.0 < k' && 0.0 < l && 0.0 < p && 0.0 <= u <= Product(l, p)
    requires Abs(d1 - Product(k, l)) <= Product(Share(k), l)
    requires Abs(q - Product(k', p)) <= Product(Share(k'), p)
    requires Abs(n - Product(Product(k, k'), u)) <= Product(Share(Product(k, k')), Product(l, p))
    ensures 0.0 < Product(d1, q) && 0.0 < Product(l, p)
    ensures Abs(Over(n, Product(d1, q)) - Over(u, Product(l, p))) <= TOLERANCE
  {
    hide Product, Abs, Share, Over;
    var a := Ratio(d1, k, l);
    var b := Ratio(q, k', p);
    PositiveProduct(k, k');
    PositiveProduct(l, p);
    PositiveProduct(Product(k, k'), Product(l, p));
    Rearranged(k, l, k', p);
    Rearranged(1.0 + a, Product(k, l), 1.0 + b, Product(k', p));
    NearOne(a, b, Product(1.0 + a, 1.0 + b));
    QuotientMeets(Product(d1, q), n, Product(k, k'), Product(l, p), u, Product(1.0 + a, 1.0 + b),
                  Product(Product(k, k'), Product(l, p)));
  }

  lemma QuotientMeets(d: real, n: real, kk: real, m: real, u: real, ab: real, km: real)
    requires 0.0 < kk && 0.0 < m && 0.0 < km == Product(kk, m) && 0.0 <= u <= m && d == Product(ab, km)
    requires Abs(ab - 1.0) <= 3.0 * EPSILON && Abs(n - Product(kk, u)) <= Product(Share(kk), m)
    ensures 0.0 < d && Abs(Over(n, d) - Over(u, m)) <= TOLERANCE
  {
    PositiveProduct(ab, km);
    Quotient(n, d);
    Quotient(n, km);
    QuotientBetween(u, m);
    QuotientsApart(n, kk, m, u, km);
    hide Product, Abs, Share, Over;
    GainTimes(Over(n, d), d, ab, km, n, Over(n, km));
    QuotientIsClose(Over(n, d), ab, Over(n, km), Over(u, m));
  }

  /** The squared gain of a cascade at the frequency of cosine c. */
  function SquaredGain(cs: seq<Section>, c: real): real
    requires DampOf(cs, c) != 0.0
  {
    Over(StrengthOf(cs, c), DampOf(cs, c))
  }

  /** That of the Butterworth bandpass: u^3 / (u^3 + v^3). */
  function Response(s: Shape, t: real): real
    requires Cube(SineSquared(t)) + Cube(Away(s, t)) != 0.0
  {
    Over(Cube(SineSquared(t)), Cube(SineSquared(t)) + Cube(Away(s, t)))
  }

  lemma CloseTaps(samplingRate: int)
    requires HasDesign(samplingRate)
    ensures TapsAreClose(Design(samplingRate), ShapeOf(samplingRate), MiddleScale(samplingRate),
                         OuterScale(samplingRate))
  {
    UnitDenominators(samplingRate);
    EveryDesignIsClose(samplingRate);
    hide MiddleIsClose, OuterAreClose, FirstIsClose, ShapeOf, MiddleScale, OuterScale, Numerators, Denominators;
    hide IsShape, Product;
    NormalisedByOne(Numerators(samplingRate), Denominators(samplingRate));
  }

  lemma NormalisedByOne(bs: seq<Taps>, as_: seq<Taps>)
    requires |bs| == |as_| && Normalisable(as_) && forall i :: 0 <= i < |as_| ==> as_[i].c0 == 1.0
    ensures forall i :: 0 <= i < |as_| ==>
              NormalisedAll(bs, as_)[i] == Section(bs[i].c0, bs[i].c1, bs[i].c2, as_[i].c1, as_[i].c2)
  {
  }

  /** At t the squared gain of the cascade is that of the shape, to one part in a hundred million of full scale. */
  ghost predicate Follows(cs: seq<Section>, s: Shape, t: real) {
    && 0.0 < DampOf(cs, 1.0 - t) && 0.0 < Cube(SineSquared(t)) + Cube(Away(s, t))
    && Abs(SquaredGain(cs, 1.0 - t) - Response(s, t)) <= TOLERANCE
  }

  /** At every frequency the cascade is the third-order Butterworth bandpass of the shape. */
  ghost predicate IsButterworth(cs: seq<Section>, s: Shape) {
    IsShape(s) && forall t :: 0.0 <= t <= 2.0 ==> Follows(cs, s, t)
  }

  /** Sections whose taps are close to a shape's, the denominators up to k and k'. */
  ghost predicate TapsAreClose(cs: seq<Section>, s: Shape, k: real, k': real) {
    && |cs| == 3 && IsShape(s) && 0.0 < k && 0.0 < k'
    && MiddleIsClose(cs[1].a1, cs[1].a2, s.turn, s.centre, k)
    && OuterAreClose(cs[0].a1, cs[0].a2, cs[2].a1, cs[2].a2, s.turn, s.centre, k')
    && NumeratorsAreClose(cs, s, Product(k, k'))
  }

  lemma CloseTapsFollow(cs: seq<Section>, s: Shape, k: real, k': real, t: real)
    requires TapsAreClose(cs, s, k, k') && 0.0 <= t <= 2.0
    ensures Follows(cs, s, t)
  {
    hide MiddleIsClose, OuterAreClose, NumeratorsAreClose, IsShape, Cube, SineSquared, Linear, Paired, Away, Mass;
    hide Damp, StrengthOf, DampOf, Product, Share, Abs, Square, Floor0, Floor1, Line, Over;
    MassFacts(s, t);
    ShapeIsPositive(s, t);
    PairedIs(s, t);
    MassIs(s, t);
    PositiveProduct(k, k');
    ThreeFactors(cs, 1.0 - t);
    MiddleStaysClose(cs[1], s, k, t);
    OuterStayClose(cs[0], cs[2], s, k', t);
    StrengthIsClose(cs, s, Product(k, k'), t);
    QuotientsMeet(Damp(cs[1], 1.0 - t), Product(Damp(cs[0], 1.0 - t), Damp(cs[2], 1.0 - t)), StrengthOf(cs, 1.0 - t),
                  k, k', Linear(s, t), Paired(s, t), Cube(SineSquared(t)));
  }

  /** Every design is the Butterworth bandpass of its shape. */
  lemma DesignsAreButterworth(samplingRate: int)
    requires HasDesign(samplingRate)
    ensures IsButterworth(Design(samplingRate), ShapeOf(samplingRate))
  {
    hide Design, ShapeOf, MiddleScale, OuterScale, TapsAreClose, Follows;
    CloseTaps(samplingRate);
    var cs, s := Design(samplingRate), ShapeOf(samplingRate);
    forall t | 0.0 <= t <= 2.0
      ensures Follows(cs, s, t)
    {
      CloseTapsFollow(cs, s, MiddleScale(samplingRate), OuterScale(samplingRate), t);
    }
    TapsHaveShape(cs, s, MiddleScale(samplingRate), OuterScale(samplingRate));
  }

  lemma TapsHaveShape(cs: seq<Section>, s: Shape, k: real, k': real)
    requires TapsAreClose(cs, s, k, k')
    ensures IsShape(s)
  {
  }
}
