/** Small facts of real algebra, each proved where little else is in scope. */
module RealAlgebra {
  function Square(x: real): real {
    x * x
  }

  /** A product under a name, so that a proof about it need not multiply it out. */
  function Product(x: real, y: real): real {
    x * y
  }

  /** The quadratic form u^2 + k v^2. */
  function Form(k: real, u: real, v: real): real {
    Square(u) + k * Square(v)
  }

  function Weighted(t: real, x: real, q: real, y: real): real {
    (1.0 + t) * x + (1.0 + q) * y
  }

  function Combined(r: real, e: real, k: real, p: real): real {
    r * e + k * p
  }

  function Abs(x: real): real {
    if x < 0.0 then -x else x
  }

  function Power(r: real, n: nat): real {
    if n == 0 then 1.0 else r * Power(r, n - 1)
  }

  lemma ProductIsNonNegative(x: real, y: real)
    requires 0.0 <= x && 0.0 <= y
    ensures 0.0 <= x * y
  {
  }

  lemma ProductIsPositive(x: real, y: real)
    requires 0.0 < x && 0.0 < y
    ensures 0.0 < x * y
  {
  }

  lemma SquareIsNonNegative(x: real)
    ensures 0.0 <= Square(x)
  {
  }

  lemma ProductOfPositives(x: real, y: real, z: real)
    requires 0.0 < x && 0.0 < y && z == x * y
    ensures 0.0 < z
  {
  }

  lemma SquareIsPositive(x: real)
    requires 0.0 < x
    ensures 0.0 < Square(x)
  {
    ProductOfPositives(x, x, Square(x));
  }

  lemma UnitSquare(x: real)
    requires -1.0 < x < 1.0
    ensures 0.0 <= Square(x) < 1.0
  {
    ProductIsPositive(1.0 - x, 1.0 + x);
  }

  lemma SquareOrder(x: real, bound: real)
    requires Square(x) < Square(bound) && 0.0 < bound
    ensures Abs(x) < bound
  {
    if bound <= Abs(x) {
      ProductIsNonNegative(Abs(x) - bound, Abs(x) + bound);
    }
  }

  lemma Cancelled(k: real, u: real, v: real)
    requires k != 0.0
    ensures k * u == k * v <==> u == v
  {
  }

  lemma CancelFactor(k: real, u: real, v: real)
    requires 0.0 < k && k * u < k * v
    ensures u < v
  {
    if v <= u {
      ProductIsNonNegative(k, u - v);
    }
  }

  lemma SameProduct(k: real, u: real, v: real)
    requires u == v
    ensures k * u == k * v
  {
  }

  /** A quotient by a greater magnitude lies strictly between -1 and 1. */
  lemma ProperFraction(r: real, a: real, s: real)
    requires r * s == a && -s < a < s
    ensures -1.0 < r < 1.0
  {
    CancelFactor(s, r, 1.0);
    CancelFactor(s, -1.0, r);
  }

  lemma QuotientIs(n: real, d: real, q: real)
    requires d != 0.0 && q * d == n
    ensures n / d == q
  {
  }

  lemma ScaledSquare(p: real, x: real, t: real)
    requires t == p * x
    ensures Square(t) == Square(p) * Square(x)
  {
  }

  lemma BoundedSum(p: real, x: real, x': real, q: real, y: real, y': real)
    requires 0.0 <= p && 0.0 <= q && x <= x' && y <= y'
    ensures p * x + q * y <= p * x' + q * y'
  {
    ProductIsNonNegative(p, x' - x);
    ProductIsNonNegative(q, y' - y);
  }

  lemma SquareOfDifference(x: real, y: real, d: real)
    requires d == x - y
    ensures Square(d) <= 2.0 * Square(x) + 2.0 * Square(y)
  {
    assert Square(d) + Square(x + y) == 2.0 * Square(x) + 2.0 * Square(y);
  }

  lemma WeightedSquare(x: real, y: real, t: real, q: real)
    requires t * q == 1.0
    ensures q * Square(t * x - y) == t * Square(x) - 2.0 * (x * y) + q * Square(y)
  {
    assert q * Square(t * x - y) == (t * q) * (t * Square(x)) - 2.0 * (t * q) * (x * y) + q * Square(y);
  }

  lemma SquareOfSum(x: real, y: real, s: real, t: real, q: real)
    requires 0.0 < t && 0.0 < q && t * q == 1.0 && s == x + y
    ensures Square(s) <= (1.0 + t) * Square(x) + (1.0 + q) * Square(y)
  {
    WeightedSquare(x, y, t, q);
    SquareIsNonNegative(t * x - y);
    ProductIsNonNegative(q, Square(t * x - y));
    assert Square(s) == Square(x) + 2.0 * (x * y) + Square(y);
  }

  /** The quadratic form of a sum, with any weight t shared between the two. */
  lemma FormOfSum(k: real, u: real, u': real, us: real, v: real, v': real, vs: real, t: real, q: real)
    requires 0.0 < t && 0.0 < q && t * q == 1.0 && 0.0 <= k && us == u + u' && vs == v + v'
    ensures Form(k, us, vs) <= Weighted(t, Form(k, u, v), q, Form(k, u', v'))
  {
    SquareOfSum(u, u', us, t, q);
    SquareOfSum(v, v', vs, t, q);
    hide Square;
    FormBound(k, Square(us), Square(u), Square(u'), Square(vs), Square(v), Square(v'), t, q);
  }

  lemma FormBound(k: real, us: real, u: real, u': real, vs: real, v: real, v': real, t: real, q: real)
    requires 0.0 <= k && us <= (1.0 + t) * u + (1.0 + q) * u' && vs <= (1.0 + t) * v + (1.0 + q) * v'
    ensures us + k * vs <= (1.0 + t) * (u + k * v) + (1.0 + q) * (u' + k * v')
  {
    ProductIsNonNegative(k, (1.0 + t) * v + (1.0 + q) * v' - vs);
  }

  lemma FormScales(k: real, u: real, u': real, v: real, v': real, x: real)
    requires u' == Product(x, u) && v' == Product(x, v)
    ensures Form(k, u', v') == Product(Square(x), Form(k, u, v))
  {
    ScaledSquare(x, u, u');
    ScaledSquare(x, v, v');
    hide Square;
  }

  /** A hyperbolic rotation keeps the quadratic form. */
  lemma Rotation(r: real, k: real, e: real, p: real, f: real, g: real)
    requires k == 1.0 - Square(r) && f == Combined(r, e, k, p) && g == e - Product(r, p)
    ensures Form(k, f, g) == Form(k, e, p)
  {
  }

  /** One lattice step scales one of the two squares and loses the rest of it. */
  lemma LatticeDrop(r: real, k: real, a2: real, e: real, p: real, f: real, t: real, g: real)
    requires k == 1.0 - Square(r) && f == Combined(r, e, k, p) && g == e - Product(r, p) && t == -Product(a2, f)
    ensures Form(k, t, g) == Form(k, e, p) - Product(1.0 - Square(a2), Square(f))
  {
    Rotation(r, k, e, p, f, g);
    NegatedSquare(a2, f, t);
    hide Square;
  }

  /** Two consecutive losses of a lattice section bound its whole quadratic form. */
  lemma TwoLossesSpan(r: real, k: real, a2: real, f0: real, t: real, f1: real, g: real)
    requires -1.0 < r < 1.0 && -1.0 < a2 < 1.0 && k == 1.0 - Square(r)
    requires t == -Product(a2, f0) && f1 == Combined(r, t, k, g)
    ensures Product(k, Form(k, f0, g)) <= 2.0 * (Square(f0) + Square(f1))
  {
    NegatedSquare(a2, f0, t);
    CombinedSquare(r, t, k, g, f1);
    UnitSquare(a2);
    UnitSquare(r);
    SquareIsNonNegative(f0);
    assert Product(k, Form(k, f0, g)) == k * (Square(f0) + k * Square(g));
    hide Square, Product, Form, Combined;
    LossBound(Square(r), k, Square(a2), Square(f0), Square(g), Square(t), Square(f1));
  }

  lemma NegatedSquare(a: real, f: real, t: real)
    requires t == -Product(a, f)
    ensures Square(t) == Square(a) * Square(f)
  {
    ScaledSquare(a, f, a * f);
    assert Square(t) == Square(a * f);
  }

  lemma CombinedSquare(r: real, t: real, k: real, g: real, f: real)
    requires f == Combined(r, t, k, g)
    ensures k * k * Square(g) <= 2.0 * Square(f) + 2.0 * (Square(r) * Square(t))
  {
    SquareOfDifference(f, r * t, k * g);
    ScaledSquare(k, g, k * g);
    ScaledSquare(r, t, r * t);
    assert Square(k) == k * k;
    hide Square;
  }

  lemma LossBound(rr: real, k: real, aa: real, s: real, q: real, tt: real, ff: real)
    requires 0.0 <= rr < 1.0 && 0.0 <= aa < 1.0 && 0.0 <= s && k == 1.0 - rr
    requires tt == aa * s && k * k * q <= 2.0 * ff + 2.0 * (rr * tt)
    ensures k * (s + k * q) <= 2.0 * (s + ff)
  {
    ProductIsNonNegative(1.0 - aa, s);
    ProductIsNonNegative(rr, s - tt);
    ProductIsNonNegative(1.0 - rr, s);
  }

  lemma TwoDrops(e0: real, e1: real, e2: real, d: real, k: real, s0: real, s1: real, factor: real)
    requires e1 == e0 - Product(d, s0) && e2 == e1 - Product(d, s1) && factor == 1.0 - Product(d, k) / 2.0
    requires Product(k, e0) <= 2.0 * (s0 + s1) && 0.0 < d
    ensures e2 <= Product(factor, e0)
  {
    ProductIsNonNegative(d, 2.0 * (s0 + s1) - k * e0);
    assert factor * e0 == e0 - d * (k * e0) / 2.0;
  }

  /** Powers keep the order of their bases. */
  lemma {:induction false} PowerGrows(r: real, s: real, n: nat)
    requires 0.0 <= r <= s
    ensures 0.0 <= Power(r, n) <= Power(s, n)
  {
    if n != 0 {
      PowerGrows(r, s, n - 1);
      var p, q := Power(r, n - 1), Power(s, n - 1);
      ProductIsNonNegative(r, p);
      ProductIsNonNegative(r, q - p);
      ProductIsNonNegative(s - r, q);
    }
  }

  /** Powers of a base of at most one do not grow with the exponent. */
  lemma PowerFalls(r: real, n: nat)
    requires 0.0 <= r <= 1.0
    ensures Power(r, n + 1) <= Power(r, n)
  {
    PowerGrows(r, r, n);
    ProductIsNonNegative(1.0 - r, Power(r, n));
  }

  lemma ToleranceSuffices(damping: real, drive: real, bound: real) returns (t: real)
    requires damping < 1.0 && 0.0 <= drive && 0.0 < bound
    ensures 0.0 < t && damping * bound + drive * (2.0 * t) < bound
  {
    var spare := (1.0 - damping) * bound;
    ProductIsPositive(1.0 - damping, bound);
    t := spare / (4.0 * (1.0 + drive));
    assert t * (4.0 * (1.0 + drive)) == spare;
    assert 4.0 * t + 4.0 * (drive * t) == spare;
    ProductIsNonNegative(drive, t);
  }
}
