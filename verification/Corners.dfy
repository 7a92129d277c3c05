/**
 Where the designs pass and where they stop: half power at 0.5 Hz and at the upper corner of each
 design, more in between, less outside.

 A frequency enters as the cosine of its angle, 2 pi f / rate, and the cosine as whatever lies
 between the partial sums of its power series.
 */
module Corners {
  import opened RealAlgebra
  import opened Biquads
  import opened Cascades
  import opened Stability
  import opened Decay
  import opened Tones
  import opened Bandpass
  import opened Butterworth

  // ---------- Cosines ----------

  /**
   n terms past the first of 1 - x/(d (d+1)) + x^2/(d (d+1) (d+2) (d+3)) - ..., innermost first.
   From d == 1 it is the cosine's series at the angle whose square is x.
   */
  function Series(d: real, n: nat, x: real): real
    requires 1.0 <= d
    decreases n
  {
    if n == 0 then 1.0 else 1.0 - Product(x / Pair(d), Series(d + 2.0, n - 1, x))
  }

  function Pair(d: real): (p: real)
    requires 1.0 <= d
    ensures 1.0 <= p
  {
    ProductIsNonNegative(d - 1.0, d);
    d * (d + 1.0)
  }

  /** pi is between these. */
  const PI_LOW: real := 3.1415926535
  const PI_HIGH: real := 3.1415926536

  /** A partial sum that falls short of the cosine of 2 pi share, and one that exceeds it. */
  function Short(n: nat, share: real): real {
    Series(1.0, 2 * n + 1, Square(2.0 * PI_HIGH * share))
  }

  function Beyond(n: nat, share: real): real {
    Series(1.0, 2 * n, Square(2.0 * PI_LOW * share))
  }

  /** c may be the cosine of 2 pi share: it lies between the partial sums that fall short and those that exceed. */
  ghost predicate IsCosineOf(share: real, c: real) {
    forall n: nat :: Short(n, share) <= c <= Beyond(n, share)
  }

  /** c may be the cosine of the angle by which this frequency turns from one sample to the next. */
  ghost predicate IsFrequency(hertz: real, samplingRate: int, c: real)
    requires HasDesign(samplingRate)
  {
    IsCosineOf(hertz / samplingRate as real, c)
  }

  // The series on an interval.

  function Low(d: real, n: nat, x: real, x': real): real
    requires 1.0 <= d
    decreases n
  {
    if n == 0 then 1.0 else 1.0 - x' / Pair(d) * High(d + 2.0, n - 1, x, x')
  }

  function High(d: real, n: nat, x: real, x': real): real
    requires 1.0 <= d
    decreases n
  {
    if n == 0 then 1.0 else 1.0 - x / Pair(d) * Low(d + 2.0, n - 1, x, x')
  }

  lemma Steps(d: real, n: nat, x: real, x': real)
    requires 1.0 <= d && n != 0
    ensures Low(d, n, x, x') == 1.0 - Product(x' / Pair(d), High(d + 2.0, n - 1, x, x'))
    ensures High(d, n, x, x') == 1.0 - Product(x / Pair(d), Low(d + 2.0, n - 1, x, x'))
  {
  }

  lemma ProductsOrdered(p: real, q: real, u: real, v: real)
    requires 0.0 <= p <= q && 0.0 <= u <= v
    ensures 0.0 <= Product(p, u) <= Product(q, v)
  {
    ProductIsNonNegative(p, u);
    ProductIsNonNegative(q - p, u);
    ProductIsNonNegative(q, v - u);
  }

  lemma SharesOrdered(x: real, x': real, d: real)
    requires 0.0 <= x <= x' && 1.0 <= d
    ensures 0.0 <= x / d <= x' / d && (x' <= d ==> x' / d <= 1.0)
  {
    QuotientOrder(0.0, x, d);
    QuotientOrder(x, x', d);
    if x' <= d {
      QuotientOrder(x', d, d);
    }
  }

  lemma QuotientOrder(x: real, y: real, d: real)
    requires x <= y && 1.0 <= d
    ensures x / d <= y / d
  {
    var p, q := x / d, y / d;
    assert p * d == x && q * d == y;
    if q < p {
      ProductIsPositive(p - q, d);
    }
  }

  lemma PairGrows(d: real)
    requires 3.0 <= d
    ensures 12.0 <= Pair(d)
  {
    ProductIsNonNegative(d - 3.0, d + 4.0);
  }

  lemma {:induction false} SeriesEnclosed(d: real, n: nat, x: real, z: real, x': real)
    requires 3.0 <= d && 0.0 <= x <= z <= x' <= 12.0
    ensures 0.0 <= Low(d, n, x, x') <= Series(d, n, z) <= High(d, n, x, x') <= 1.0
    decreases n
  {
    hide Product, Pair;
    if n != 0 {
      SeriesEnclosed(d + 2.0, n - 1, x, z, x');
      Steps(d, n, x, x');
      PairGrows(d);
      StepEnclosed(x / Pair(d), z / Pair(d), x' / Pair(d), Low(d + 2.0, n - 1, x, x'), Series(d + 2.0, n - 1, z),
                   High(d + 2.0, n - 1, x, x')) by {
        SharesOrdered(x, z, Pair(d));
        SharesOrdered(z, x', Pair(d));
      }
    }
  }

  lemma StepEnclosed(p: real, q: real, r: real, low: real, y: real, high: real)
    requires 0.0 <= p <= q <= r <= 1.0 && 0.0 <= low <= y <= high <= 1.0
    ensures 0.0 <= 1.0 - Product(r, high) <= 1.0 - Product(q, y) <= 1.0 - Product(p, low) <= 1.0
  {
    ProductsOrdered(p, q, low, y);
    ProductsOrdered(q, r, y, high);
    ProductsOrdered(r, 1.0, high, 1.0);
  }

  lemma CosineEnclosed(n: nat, x: real, z: real, x': real)
    requires 0.0 <= x <= z <= x' <= 12.0 && n != 0
    ensures Low(1.0, n, x, x') <= Series(1.0, n, z) <= High(1.0, n, x, x')
  {
    SeriesEnclosed(3.0, n - 1, x, z, x');
    Steps(1.0, n, x, x');
    hide Product, Pair;
    SharesOrdered(x, z, Pair(1.0));
    SharesOrdered(z, x', Pair(1.0));
    ProductsOrdered(x / Pair(1.0), z / Pair(1.0), Low(3.0, n - 1, x, x'), Series(3.0, n - 1, z));
    ProductsOrdered(z / Pair(1.0), x' / Pair(1.0), Series(3.0, n - 1, z), High(3.0, n - 1, x, x'));
  }

  /** 1 minus the cosine of 2 pi share is between t and t', by n pairs of terms. */
  predicate Within(share: real, n: nat, x: real, x': real, t: real, t': real) {
    && 0.0 <= share && 0.0 <= x <= Square(2.0 * PI_LOW * share) && Square(2.0 * PI_HIGH * share) <= x' <= 12.0
    && t <= 1.0 - High(1.0, 2 * n, x, x') && 1.0 - Low(1.0, 2 * n + 1, x, x') <= t'
  }

  lemma CosineWithin(share: real, n: nat, x: real, x': real, t: real, t': real, c: real)
    requires n != 0 && Within(share, n, x, x', t, t') && IsCosineOf(share, c)
    ensures t <= 1.0 - c <= t'
  {
    hide Square, Series, High, Low;
    SquaresOrdered(2.0 * PI_LOW * share, 2.0 * PI_HIGH * share);
    assert Short(n, share) <= c <= Beyond(n, share);
    CosineEnclosed(2 * n, x, Square(2.0 * PI_LOW * share), x');
    CosineEnclosed(2 * n + 1, x, Square(2.0 * PI_HIGH * share), x');
  }

  lemma SquaresOrdered(u: real, v: real)
    requires 0.0 <= u <= v
    ensures Square(u) <= Square(v)
  {
    ProductsOrdered(u, v, u, v);
  }

  // ---------- Power above and below one half ----------

  /** How far the shape is on the passing side, u - v: its squared gain is one half exactly where this is zero. */
  function Lead(turn: real, centre: real, t: real): real {
    SineSquared(t) - turn * Square(t - centre)
  }

  lemma LeadIs(s: Shape, t: real)
    ensures Lead(s.turn, s.centre, t) == SineSquared(t) - Away(s, t)
  {
  }

  lemma CubesApart(u: real, v: real)
    ensures Cube(u) - Cube(v) == Product(u - v, Square(u) + Product(u, v) + Square(v))
    ensures Cube(u) + Cube(v) == Product(u + v, Square(u) - Product(u, v) + Square(v))
    ensures Square(u) + Product(u, v) + Square(v) <= 3.0 * (Square(u) - Product(u, v) + Square(v))
  {
    SquareIsNonNegative(u - v);
    assert 3.0 * (u * u - u * v + v * v) - (u * u + u * v + v * v) == 2.0 * Square(u - v);
  }

  lemma NearHalf(y: real, d: real, l: real, p: real, q: real, u3: real, v3: real, k: real)
    requires Product(y, u3 + v3) == u3 && u3 - v3 == Product(d, q) && u3 + v3 == Product(l, p) && 0.0 < Product(l, p)
    requires 0.0 <= l && 0.0 <= p && 0.0 <= q <= 3.0 * p && 0.0 <= k && Abs(d) <= Product(k, l)
    ensures Abs(y - 0.5) <= 2.0 * k
  {
    var m := Product(l, p);
    TermUpTo(d, q, 3.0 * p);
    ProductIsNonNegative(k * l - Abs(d), p);
    assert (k * l) * p == k * m;
    Doubled(y, m, u3, v3);
    Bounded(2.0 * (y - 0.5), m, 3.0 * k);
  }

  lemma Bounded(z: real, m: real, b: real)
    requires 0.0 < m && Abs(Product(z, m)) <= b * m
    ensures Abs(z) <= b
  {
    if b < z {
      ProductIsPositive(z - b, m);
    }
    if z < -b {
      ProductIsPositive(-b - z, m);
    }
  }

  lemma Doubled(y: real, m: real, u3: real, v3: real)
    requires Product(y, m) == u3 && u3 + v3 == m
    ensures Product(2.0 * (y - 0.5), m) == u3 - v3
  {
  }

  lemma AboveHalf(y: real, d: real, l: real, p: real, q: real, u3: real, v3: real, margin: real)
    requires Product(y, u3 + v3) == u3 && u3 - v3 == Product(d, q) && u3 + v3 == Product(l, p) && 0.0 < Product(l, p)
    requires 0.0 <= l <= 5.0 && 0.0 <= p <= q && 0.0 < margin <= d
    ensures 0.5 + margin / 10.0 <= y
  {
    var m := Product(l, p);
    Doubled(y, m, u3, v3);
    ProductsOrdered(margin, d, p, q);
    ProductsOrdered(l, 5.0, p, p);
    if y < 0.5 + margin / 10.0 {
      ProductIsPositive(0.5 + margin / 10.0 - y, m);
      ProductIsNonNegative(margin, 5.0 * p - m);
    }
  }

  lemma BelowHalf(y: real, d: real, l: real, p: real, q: real, u3: real, v3: real, margin: real)
    requires Product(y, u3 + v3) == u3 && u3 - v3 == Product(d, q) && u3 + v3 == Product(l, p) && 0.0 < Product(l, p)
    requires 0.0 <= l <= 5.0 && 0.0 <= p <= q && 0.0 < margin <= -d
    ensures y <= 0.5 - margin / 10.0
  {
    assert Product(1.0 - y, v3 + u3) == v3;
    assert Product(-d, q) == -Product(d, q);
    hide Product;
    AboveHalf(1.0 - y, -d, l, p, q, v3, u3, margin);
  }

  // What the three lemmas above need of a shape.
  lemma ResponseFacts(s: Shape, t: real)
    requires IsShape(s) && 0.0 <= t <= 2.0
    ensures var u, v := SineSquared(t), Away(s, t);
            var p, q := Square(u) - Product(u, v) + Square(v), Square(u) + Product(u, v) + Square(v);
            var m := Cube(u) + Cube(v);
            && 0.0 < m == Product(u + v, p) && Product(Response(s, t), m) == Cube(u)
            && Cube(u) - Cube(v) == Product(u - v, q) && 0.0 <= p <= q <= 3.0 * p
            && 0.0 <= u <= u + v <= 5.0 && Lead(s.turn, s.centre, t) == u - v
  {
    var u, v := SineSquared(t), Away(s, t);
    MassFacts(s, t);
    ShapeIsPositive(s, t);
    PairedIs(s, t);
    MassIs(s, t);
    LeadIs(s, t);
    SmallShape(s, t);
    hide SineSquared, Away, Mass, Linear, Paired, IsShape, Lead, Square, Cube, Floor0, Floor1, Line;
    CubesApart(u, v);
    Quotient(Cube(u), Cube(u) + Cube(v));
    PositiveOrZero(u, v);
    hide Product;
  }

  lemma SmallShape(s: Shape, t: real)
    requires IsShape(s) && 0.0 <= t <= 2.0
    ensures SineSquared(t) <= 1.0 && Away(s, t) <= 4.0
  {
    SquareIsNonNegative(t - 1.0);
    var d := t - s.centre;
    ProductIsNonNegative(2.0 - d, 2.0 + d);
    SquareIsNonNegative(d);
    ProductIsNonNegative(1.0 - s.turn, Square(d));
  }

  lemma WiderBound(k: real, u: real, v: real, d: real)
    requires 0.0 <= k && 0.0 <= v && Abs(d) <= Product(k, u)
    ensures Abs(d) <= Product(k, u + v)
  {
    ProductIsNonNegative(k, v);
  }

  lemma HalfAt(s: Shape, t: real, k: real)
    requires IsShape(s) && 0.0 <= t <= 2.0 && 0.0 <= k
    requires Abs(Lead(s.turn, s.centre, t)) <= Product(k, SineSquared(t))
    ensures 0.0 < Cube(SineSquared(t)) + Cube(Away(s, t)) && Abs(Response(s, t) - 0.5) <= 2.0 * k
  {
    var u, v := SineSquared(t), Away(s, t);
    ResponseFacts(s, t);
    hide SineSquared, Away, IsShape, Lead, Square, Cube, Product, Abs, Response;
    WiderBound(k, u, v, Lead(s.turn, s.centre, t));
    NearHalf(Response(s, t), u - v, u + v, Square(u) - Product(u, v) + Square(v),
              Square(u) + Product(u, v) + Square(v),
             Cube(u), Cube(v), k);
  }

  lemma PassAt(s: Shape, t: real, margin: real)
    requires IsShape(s) && 0.0 <= t <= 2.0 && 0.0 < margin <= Lead(s.turn, s.centre, t)
    ensures 0.0 < Cube(SineSquared(t)) + Cube(Away(s, t)) && 0.5 + margin / 10.0 <= Response(s, t)
  {
    var u, v := SineSquared(t), Away(s, t);
    ResponseFacts(s, t);
    hide SineSquared, Away, IsShape, Lead, Square, Cube, Product, Abs, Response;
    AboveHalf(Response(s, t), u - v, u + v, Square(u) - Product(u, v) + Square(v),
              Square(u) + Product(u, v) + Square(v),
              Cube(u), Cube(v), margin);
  }

  lemma StopAt(s: Shape, t: real, margin: real)
    requires IsShape(s) && 0.0 <= t <= 2.0 && 0.0 < margin <= -Lead(s.turn, s.centre, t)
    ensures 0.0 < Cube(SineSquared(t)) + Cube(Away(s, t)) && Response(s, t) <= 0.5 - margin / 10.0
  {
    var u, v := SineSquared(t), Away(s, t);
    ResponseFacts(s, t);
    hide SineSquared, Away, IsShape, Lead, Square, Cube, Product, Abs, Response;
    BelowHalf(Response(s, t), u - v, u + v, Square(u) - Product(u, v) + Square(v),
              Square(u) + Product(u, v) + Square(v),
              Cube(u), Cube(v), margin);
  }

  // ---------- The lead between and beyond two frequencies ----------

  function Steepness(turn: real, centre: real, sum: real): real {
    2.0 + 2.0 * (turn * centre) - (1.0 + turn) * sum
  }

  /** The lead's rise from x to y, whose steepness falls with x + y: the lead is concave. */
  lemma Rise(turn: real, centre: real, x: real, y: real)
    ensures Lead(turn, centre, y) - Lead(turn, centre, x) == Product(y - x, Steepness(turn, centre, x + y))
  {
    LeadExpands(turn, centre, x);
    LeadExpands(turn, centre, y);
    hide Lead;
    RiseAlgebra(2.0 + 2.0 * (turn * centre), 1.0 + turn, x, y);
  }

  lemma RiseAlgebra(g1: real, g2: real, x: real, y: real)
    ensures (g1 * y - g2 * (y * y)) - (g1 * x - g2 * (x * x)) == (y - x) * (g1 - g2 * (x + y))
  {
    assert g2 * (y * y) - g2 * (x * x) == g2 * ((y - x) * (x + y));
  }

  lemma LeadExpands(turn: real, centre: real, t: real)
    ensures Lead(turn, centre, t)
            == -(turn * (centre * centre)) + ((2.0 + 2.0 * (turn * centre)) * t - (1.0 + turn) * (t * t))
  {
  }

  lemma SteepnessFalls(turn: real, centre: real, sum: real, sum': real)
    requires 0.0 <= turn && sum <= sum'
    ensures Steepness(turn, centre, sum') <= Steepness(turn, centre, sum)
  {
    ProductIsNonNegative(1.0 + turn, sum' - sum);
  }

  lemma SignOfFactor(d: real, z: real)
    requires 0.0 < d
    ensures 0.0 < Product(d, z) <==> 0.0 < z
    ensures Product(d, z) < 0.0 <==> z < 0.0
  {
  }

  lemma LeadBetween(turn: real, centre: real, a: real, t: real, b: real, margin: real)
    requires 0.0 <= turn && a <= t <= b
    requires margin <= Lead(turn, centre, a) && margin <= Lead(turn, centre, b)
    ensures margin <= Lead(turn, centre, t)
  {
    Rise(turn, centre, a, t);
    Rise(turn, centre, t, b);
    SteepnessFalls(turn, centre, a + t, t + b);
    hide Lead, Steepness, Product;
    if Lead(turn, centre, t) < margin {
      SignOfFactor(t - a, Steepness(turn, centre, a + t));
      SignOfFactor(b - t, Steepness(turn, centre, t + b));
    }
  }

  lemma LeadBelow(turn: real, centre: real, t: real, a: real, b: real, margin: real)
    requires 0.0 <= turn && t <= a < b && 0.0 < margin
    requires Lead(turn, centre, a) <= -margin && 0.0 <= Lead(turn, centre, b)
    ensures Lead(turn, centre, t) <= -margin
  {
    Rise(turn, centre, t, a);
    Rise(turn, centre, a, b);
    SteepnessFalls(turn, centre, t + a, a + b);
    hide Lead, Steepness, Product;
    if -margin < Lead(turn, centre, t) {
      SignOfFactor(a - t, Steepness(turn, centre, t + a));
      SignOfFactor(b - a, Steepness(turn, centre, a + b));
    }
  }

  lemma LeadBeyond(turn: real, centre: real, b: real, a: real, t: real, margin: real)
    requires 0.0 <= turn && b < a <= t && 0.0 < margin
    requires Lead(turn, centre, a) <= -margin && 0.0 <= Lead(turn, centre, b)
    ensures Lead(turn, centre, t) <= -margin
  {
    Rise(turn, centre, b, a);
    Rise(turn, centre, a, t);
    SteepnessFalls(turn, centre, b + a, a + t);
    hide Lead, Steepness, Product;
    if -margin < Lead(turn, centre, t) {
      SignOfFactor(a - b, Steepness(turn, centre, b + a));
      SignOfFactor(t - a, Steepness(turn, centre, a + t));
    }
  }

  /** The lead moves by at most six times as much as t. */
  lemma LeadNearby(turn: real, centre: real, a: real, t: real, b: real)
    requires 0.0 < turn <= 1.0 && 0.0 < centre < 1.0 && 0.0 <= a <= t <= b <= 2.0
    ensures Abs(Lead(turn, centre, t)) <= Abs(Lead(turn, centre, a)) + 6.0 * (b - a)
    ensures SineSquared(a) - 2.0 * (b - a) <= SineSquared(t)
  {
    Rise(turn, centre, a, t);
    SteepnessIsBounded(turn, centre, a + t);
    SinesNearby(a, t);
    hide Lead, Steepness, SineSquared, Product;
    SmallRise(t - a, Steepness(turn, centre, a + t), b - a);
  }

  lemma SmallRise(d: real, z: real, w: real)
    requires 0.0 <= d <= w && -6.0 <= z <= 6.0
    ensures -6.0 * w <= Product(d, z) <= 6.0 * w
  {
    ProductIsNonNegative(d, 6.0 - z);
    ProductIsNonNegative(d, 6.0 + z);
  }

  lemma SinesNearby(a: real, t: real)
    requires 0.0 <= a <= t <= 2.0
    ensures SineSquared(a) - 2.0 * (t - a) <= SineSquared(t)
  {
    ProductIsNonNegative(t - a, 4.0 - a - t);
    assert SineSquared(t) - SineSquared(a) == (t - a) * (2.0 - a - t);
  }

  lemma SteepnessIsBounded(turn: real, centre: real, sum: real)
    requires 0.0 < turn <= 1.0 && 0.0 < centre < 1.0 && 0.0 <= sum <= 4.0
    ensures -6.0 <= Steepness(turn, centre, sum) <= 6.0
  {
    ProductsOrdered(turn, 1.0, centre, 1.0);
    ProductsOrdered(1.0 + turn, 2.0, sum, 4.0);
    assert Product(turn, centre) == turn * centre && Product(1.0 + turn, sum) == (1.0 + turn) * sum;
    assert Product(1.0, 1.0) == 1.0 && Product(2.0, 4.0) == 8.0;
  }

  // ---------- The designs' corners ----------

  /** Where each design was asked to stop passing; all of them start at 0.5 Hz. */
  function UpperCorner(samplingRate: int): real
    requires HasDesign(samplingRate)
  {
    match samplingRate
    case 40 => 18.0
    case 80 => 38.0
    case 100 => 45.0
    case 200 => 90.0
    case 500 => 230.0
    case _ => 400.0
  }

  const LOWER_CORNER: real := 0.5

  const NEAR: real := 0.00000025
  const MARGIN: real := 0.0000003

  /** 1 - cosine of six frequencies: 2% below, at and 2% above the lower corner, and 1% around the upper. */
  datatype Marks = Marks(below: real, lower: real, lower': real, above: real, under: real, upper: real, upper': real,
                         over: real)

  /** The lead at the marks: none at the corners, negative outside them, positive inside. */
  predicate LeadTurns(turn: real, centre: real, below: real, lower: real, lower': real, above: real, under: real,
                      upper: real, upper': real, over: real)
  {
    && 0.0 <= below < above < under < over <= 2.0 && 0.0 <= lower <= lower' <= 2.0 && 0.0 <= upper <= upper' <= 2.0
    && Lead(turn, centre, below) <= -MARGIN && MARGIN <= Lead(turn, centre, above)
    && MARGIN <= Lead(turn, centre, under) && Lead(turn, centre, over) <= -MARGIN
    && Abs(Lead(turn, centre, lower)) + 6.0 * (lower' - lower) <= NEAR * (SineSquared(lower) - 2.0 * (lower' - lower))
    && Abs(Lead(turn, centre, upper)) + 6.0 * (upper' - upper) <= NEAR * (SineSquared(upper) - 2.0 * (upper' - upper))
  }

  function MarksOf(samplingRate: int): Marks
    requires HasDesign(samplingRate)
  {
    match samplingRate
    case 40 => Marks(0.00296065295542, 0.00308266626668, 0.00308266626694, 0.00320713937256,
                     1.94194030088, 1.9510565161, 1.95105651647, 1.95941247165)
    case 80 => Marks(0.000740437362623, 0.000770963759191, 0.000770963759292, 0.00080210653056,
                     1.98258037682, 1.98768834035, 1.98768834081, 1.99191660422)
    case 100 => Marks(0.00047390096826, 0.000493439634238, 0.000493439634274, 0.000513372889598,
                     1.94194030088, 1.9510565161, 1.95105651647, 1.95941247165)
    case 200 => Marks(0.000118482261092, 0.00012336751833, 0.000123367518341, 0.000128351459448,
                     1.94194030088, 1.9510565161, 1.95105651647, 1.95941247165)
    case 500 => Marks(0.0000189574762361, 0.0000197391438616, 0.0000197391438632, 0.0000205366025441,
                     1.96099183337, 1.96858316092, 1.96858316131, 1.97536542633)
    case _ => Marks(0.00000473938028983, 0.00000493479814153, 0.00000493479814189, 0.00000513416381572,
                     1.79399039877, 1.80901699421, 1.8090169945, 1.82353259747)
  }

  // Bounds on 1 - cosine, by the millionths of a turn.

  lemma Cosine12250()
    ensures Within(0.01225, 5, 0.0059242300414, 0.0059242300418, 0.00296065295521, 0.00296065295542)
  {
  }

  lemma Cosine12500()
    ensures Within(0.0125, 5, 0.0061685027503, 0.0061685027508, 0.00308266626668, 0.00308266626694)
  {
  }

  lemma Cosine12750()
    ensures Within(0.01275, 5, 0.0064177102614, 0.0064177102619, 0.00320713937256, 0.00320713937282)
  {
  }

  lemma Cosine445500()
    ensures Within(0.4455, 5, 7.835291411, 7.8352914116, 1.94194030051, 1.94194030088)
  {
  }

  lemma Cosine450000()
    ensures Within(0.45, 5, 7.9943795644, 7.994379565, 1.9510565161, 1.95105651647)
  {
  }

  lemma Cosine454500()
    ensures Within(0.4545, 5, 8.1550665936, 8.1550665942, 1.95941247165, 1.95941247203)
  {
  }

  lemma Cosine6125()
    ensures Within(0.006125, 5, 0.0014810575103, 0.0014810575105, 0.000740437362522, 0.000740437362623)
  {
  }

  lemma Cosine6250()
    ensures Within(0.00625, 5, 0.0015421256875, 0.0015421256877, 0.000770963759191, 0.000770963759292)
  {
  }

  lemma Cosine6375()
    ensures Within(0.006375, 5, 0.0016044275653, 0.0016044275655, 0.00080210653056, 0.000802106530661)
  {
  }

  lemma Cosine470250()
    ensures Within(0.47025, 5, 8.7300623438, 8.7300623444, 1.98258037643, 1.98258037682)
  {
  }

  lemma Cosine475000()
    ensures Within(0.475, 5, 8.9073179714, 8.9073179721, 1.98768834035, 1.98768834081)
  {
  }

  lemma Cosine479750()
    ensures Within(0.47975, 5, 9.0863550627, 9.0863550633, 1.99191660422, 1.99191660463)
  {
  }

  lemma Cosine4900()
    ensures Within(0.0049, 5, 0.00094787680662, 0.00094787680669, 0.000473900968224, 0.00047390096826)
  {
  }

  lemma Cosine5000()
    ensures Within(0.005, 5, 0.00098696044005, 0.00098696044012, 0.000493439634238, 0.000493439634274)
  {
  }

  lemma Cosine5100()
    ensures Within(0.0051, 5, 0.0010268336418, 0.0010268336419, 0.000513372889598, 0.000513372889649)
  {
  }

  lemma Cosine2450()
    ensures Within(0.00245, 5, 0.00023696920165, 0.00023696920168, 0.000118482261076, 0.000118482261092)
  {
  }

  lemma Cosine2500()
    ensures Within(0.0025, 5, 0.00024674011001, 0.00024674011003, 0.00012336751833, 0.000123367518341)
  {
  }

  lemma Cosine2550()
    ensures Within(0.00255, 5, 0.00025670841045, 0.00025670841048, 0.000128351459448, 0.000128351459464)
  {
  }

  lemma Cosine980()
    ensures Within(0.00098, 5, 0.000037915072265, 0.000037915072268, 0.0000189574762345, 0.0000189574762361)
  {
  }

  lemma Cosine1000()
    ensures Within(0.001, 5, 0.000039478417602, 0.000039478417605, 0.0000197391438616, 0.0000197391438632)
  {
  }

  lemma Cosine1020()
    ensures Within(0.00102, 5, 0.000041073345673, 0.000041073345676, 0.0000205366025441, 0.0000205366025457)
  {
  }

  lemma Cosine455400()
    ensures Within(0.4554, 5, 8.1873958646, 8.1873958652, 1.960991833, 1.96099183337)
  {
  }

  lemma Cosine460000()
    ensures Within(0.46, 5, 8.3536331646, 8.3536331652, 1.96858316092, 1.96858316131)
  {
  }

  lemma Cosine464600()
    ensures Within(0.4646, 5, 8.5215411912, 8.5215411918, 1.97536542633, 1.97536542672)
  {
  }

  lemma Cosine490()
    ensures Within(0.00049, 5, 0.0000094787680662, 0.0000094787680669, 0.00000473938028947, 0.00000473938028983)
  {
  }

  lemma Cosine500()
    ensures Within(0.0005, 5, 0.0000098696044005, 0.0000098696044012, 0.00000493479814153, 0.00000493479814189)
  {
  }

  lemma Cosine510()
    ensures Within(0.00051, 5, 0.000010268336418, 0.000010268336419, 0.00000513416381572, 0.00000513416381623)
  {
  }

  lemma Cosine396000()
    ensures Within(0.396, 5, 6.1908475346, 6.1908475351, 1.79399039848, 1.79399039877)
  {
  }

  lemma Cosine400000()
    ensures Within(0.4, 5, 6.3165468163, 6.3165468168, 1.80901699421, 1.8090169945)
  {
  }

  lemma Cosine404000()
    ensures Within(0.404, 5, 6.4435094073, 6.4435094078, 1.82353259747, 1.82353259775)
  {
  }

  lemma Leads40()
    ensures LeadTurns(0.03956612989658003475, 0.3975231767359493285,
                      0.00296065295542, 0.00308266626668, 0.00308266626694, 0.00320713937256,
                      1.94194030088, 1.9510565161, 1.95105651647, 1.95941247165)
  {
  }

  lemma Leads80()
    ensures LeadTurns(0.0097005565352636259, 0.39938256254723214264,
                      0.000740437362623, 0.000770963759191, 0.000770963759292, 0.00080210653056,
                      1.98258037682, 1.98768834035, 1.98768834081, 1.99191660422)
  {
  }

  lemma Leads100()
    ensures LeadTurns(0.03046000145471523287, 0.18046897407944397557,
                      0.00047390096826, 0.000493439634238, 0.000493439634274, 0.000513372889598,
                      1.94194030088, 1.9510565161, 1.95105651647, 1.95941247165)
  {
  }

  lemma Leads200()
    ensures LeadTurns(0.02770415024597715596, 0.09449242126367853461,
                      0.000118482261092, 0.00012336751833, 0.000123367518341, 0.000128351459448,
                      1.94194030088, 1.9510565161, 1.95105651647, 1.95941247165)
  {
  }

  lemma Leads500()
    ensures LeadTurns(0.0167760484386325726, 0.04852983972519569477,
                      0.0000189574762361, 0.0000197391438616, 0.0000197391438632, 0.0000205366025441,
                      1.96099183337, 1.96858316092, 1.96858316131, 1.97536542633)
  {
  }

  lemma Leads1000()
    ensures LeadTurns(0.10670493556824323504, 0.00962231763745130672,
                      0.00000473938028983, 0.00000493479814153, 0.00000493479814189, 0.00000513416381572,
                      1.79399039877, 1.80901699421, 1.8090169945, 1.82353259747)
  {
  }

  /** Every design's marks are where they should be, and the lead turns there. */
  lemma MarksAreRight(samplingRate: int, c: real)
    requires HasDesign(samplingRate)
    ensures var s, k := ShapeOf(samplingRate), MarksOf(samplingRate);
            LeadTurns(s.turn, s.centre, k.below, k.lower, k.lower', k.above, k.under, k.upper, k.upper', k.over)
    ensures IsFrequency(0.98 * LOWER_CORNER, samplingRate, c) ==> 1.0 - c <= MarksOf(samplingRate).below
    ensures IsFrequency(LOWER_CORNER, samplingRate, c) ==>
              MarksOf(samplingRate).lower <= 1.0 - c <= MarksOf(samplingRate).lower'
    ensures IsFrequency(1.02 * LOWER_CORNER, samplingRate, c) ==> MarksOf(samplingRate).above <= 1.0 - c
    ensures IsFrequency(0.99 * UpperCorner(samplingRate), samplingRate, c) ==> 1.0 - c <= MarksOf(samplingRate).under
    ensures IsFrequency(UpperCorner(samplingRate), samplingRate, c) ==>
              MarksOf(samplingRate).upper <= 1.0 - c <= MarksOf(samplingRate).upper'
    ensures IsFrequency(1.01 * UpperCorner(samplingRate), samplingRate, c) ==> MarksOf(samplingRate).over <= 1.0 - c
  {
    hide LeadTurns, Within, IsCosineOf;
    CosinesWithin(c);
    match samplingRate
    case 40 =>
      Cosine12250();
      Cosine12500();
      Cosine12750();
      Cosine445500();
      Cosine450000();
      Cosine454500();
      Leads40();
    case 80 =>
      Cosine6125();
      Cosine6250();
      Cosine6375();
      Cosine470250();
      Cosine475000();
      Cosine479750();
      Leads80();
    case 100 =>
      Cosine4900();
      Cosine5000();
      Cosine5100();
      Cosine445500();
      Cosine450000();
      Cosine454500();
      Leads100();
    case 200 =>
      Cosine2450();
      Cosine2500();
      Cosine2550();
      Cosine445500();
      Cosine450000();
      Cosine454500();
      Leads200();
    case 500 =>
      Cosine980();
      Cosine1000();
      Cosine1020();
      Cosine455400();
      Cosine460000();
      Cosine464600();
      Leads500();
    case _ =>
      Cosine490();
      Cosine500();
      Cosine510();
      Cosine396000();
      Cosine400000();
      Cosine404000();
      Leads1000();
  }

  lemma CosinesWithin(c: real)
    ensures forall share, n: nat, x, x', t, t' ::
              n != 0 && Within(share, n, x, x', t, t') && IsCosineOf(share, c) ==> t <= 1.0 - c <= t'
  {
    forall share, n: nat, x, x', t, t' | n != 0 && Within(share, n, x, x', t, t') && IsCosineOf(share, c)
      ensures t <= 1.0 - c <= t'
    {
      CosineWithin(share, n, x, x', t, t', c);
    }
  }

  // ---------- What the designs pass ----------

  /** What a design multiplies the power of a frequency by. */
  function Gain(samplingRate: int, c: real): real
    requires HasDesign(samplingRate) && -1.0 <= c <= 1.0
  {
    DesignsDamp(samplingRate, c);
    SquaredGain(Design(samplingRate), c)
  }

  lemma DesignsDamp(samplingRate: int, c: real)
    requires HasDesign(samplingRate) && -1.0 <= c <= 1.0
    ensures 0.0 < DampOf(Design(samplingRate), c)
  {
    DesignsAreSound(samplingRate);
    hide Design;
    StableCascadeDamps(Design(samplingRate), c);
  }

  /** The gain of a Butterworth cascade is its shape's response, to TOLERANCE. */
  lemma GainIsResponse(cs: seq<Section>, s: Shape, c: real)
    requires IsButterworth(cs, s) && -1.0 <= c <= 1.0
    ensures IsShape(s) && DampOf(cs, c) != 0.0 && 0.0 < Cube(SineSquared(1.0 - c)) + Cube(Away(s, 1.0 - c))
    ensures Abs(SquaredGain(cs, c) - Response(s, 1.0 - c)) <= TOLERANCE
  {
    hide Response, SquaredGain, DampOf, Cube, SineSquared, Away, IsShape, Abs;
    assert Follows(cs, s, 1.0 - c);
    assert 1.0 - (1.0 - c) == c;
  }

  /** Half of the power is left at 0.5 Hz and at the upper corner. */
  lemma HalfPowerAtTheCorners(samplingRate: int, c: real)
    requires HasDesign(samplingRate) && -1.0 <= c <= 1.0
    requires IsFrequency(LOWER_CORNER, samplingRate, c) || IsFrequency(UpperCorner(samplingRate), samplingRate, c)
    ensures Abs(Gain(samplingRate, c) - 0.5) <= 0.000001
  {
    hide IsFrequency, LeadTurns, ShapeOf, MarksOf, Response, SquaredGain, Design, IsButterworth, DampOf, Cube;
    hide SineSquared, Away;
    var s, k := ShapeOf(samplingRate), MarksOf(samplingRate);
    MarksAreRight(samplingRate, c);
    DesignsAreButterworth(samplingRate);
    GainIsResponse(Design(samplingRate), s, c);
    CornerMarks(s, k);
    if IsFrequency(LOWER_CORNER, samplingRate, c) {
      CornerIsHalf(s, k.lower, 1.0 - c, k.lower');
    } else {
      CornerIsHalf(s, k.upper, 1.0 - c, k.upper');
    }
  }

  lemma CornerMarks(s: Shape, k: Marks)
    requires LeadTurns(s.turn, s.centre, k.below, k.lower, k.lower', k.above, k.under, k.upper, k.upper', k.over)
    ensures 0.0 <= k.lower <= k.lower' <= 2.0 && 0.0 <= k.upper <= k.upper' <= 2.0
    ensures Abs(Lead(s.turn, s.centre, k.lower)) + 6.0 * (k.lower' - k.lower)
            <= NEAR * (SineSquared(k.lower) - 2.0 * (k.lower' - k.lower))
    ensures Abs(Lead(s.turn, s.centre, k.upper)) + 6.0 * (k.upper' - k.upper)
            <= NEAR * (SineSquared(k.upper) - 2.0 * (k.upper' - k.upper))
  {
    hide Lead, SineSquared, Abs;
  }

  lemma CornerIsHalf(s: Shape, a: real, t: real, b: real)
    requires IsShape(s) && 0.0 <= a <= t <= b <= 2.0
    requires Abs(Lead(s.turn, s.centre, a)) + 6.0 * (b - a) <= NEAR * (SineSquared(a) - 2.0 * (b - a))
    ensures 0.0 < Cube(SineSquared(t)) + Cube(Away(s, t)) && Abs(Response(s, t) - 0.5) <= 2.0 * NEAR
  {
    LeadNearby(s.turn, s.centre, a, t, b);
    hide Lead, SineSquared, Abs, Response, Cube, Away;
    assert Product(NEAR, SineSquared(t)) == NEAR * SineSquared(t);
    HalfAt(s, t, NEAR);
  }

  /** Between 0.51 Hz and 1% below the upper corner more than half of the power is left. */
  lemma MoreInBetween(samplingRate: int, low: real, c: real, high: real)
    requires HasDesign(samplingRate) && -1.0 <= high <= c <= low <= 1.0
    requires IsFrequency(1.02 * LOWER_CORNER, samplingRate, low)
    requires IsFrequency(0.99 * UpperCorner(samplingRate), samplingRate, high)
    ensures 0.5 < Gain(samplingRate, c)
  {
    hide IsFrequency, ShapeOf, MarksOf, Response, SquaredGain, Design, IsButterworth, DampOf, Cube, SineSquared;
    hide Away, Lead;
    var s, k := ShapeOf(samplingRate), MarksOf(samplingRate);
    MarksAreRight(samplingRate, low);
    MarksAreRight(samplingRate, high);
    DesignsAreButterworth(samplingRate);
    GainIsResponse(Design(samplingRate), s, c);
    LeadBetween(s.turn, s.centre, k.above, 1.0 - c, k.under, MARGIN);
    PassAt(s, 1.0 - c, MARGIN);
  }

  /** Up to 0.49 Hz less than half is. */
  lemma LessBelow(samplingRate: int, low: real, c: real)
    requires HasDesign(samplingRate) && -1.0 <= low <= c <= 1.0
    requires IsFrequency(0.98 * LOWER_CORNER, samplingRate, low)
    ensures Gain(samplingRate, c) < 0.5
  {
    hide IsFrequency, ShapeOf, MarksOf, Response, SquaredGain, Design, IsButterworth, DampOf, Cube, SineSquared;
    hide Away, Lead;
    var s, k := ShapeOf(samplingRate), MarksOf(samplingRate);
    MarksAreRight(samplingRate, low);
    DesignsAreButterworth(samplingRate);
    GainIsResponse(Design(samplingRate), s, c);
    LeadBelow(s.turn, s.centre, 1.0 - c, k.below, k.above, MARGIN);
    StopAt(s, 1.0 - c, MARGIN);
  }

  /** And so it is from 1% above the upper corner on. */
  lemma LessBeyond(samplingRate: int, c: real, high: real)
    requires HasDesign(samplingRate) && -1.0 <= c <= high <= 1.0
    requires IsFrequency(1.01 * UpperCorner(samplingRate), samplingRate, high)
    ensures Gain(samplingRate, c) < 0.5
  {
    hide IsFrequency, ShapeOf, MarksOf, Response, SquaredGain, Design, IsButterworth, DampOf, Cube, SineSquared;
    hide Away, Lead;
    var s, k := ShapeOf(samplingRate), MarksOf(samplingRate);
    MarksAreRight(samplingRate, high);
    DesignsAreButterworth(samplingRate);
    GainIsResponse(Design(samplingRate), s, c);
    LeadBeyond(s.turn, s.centre, k.under, k.over, 1.0 - c, MARGIN);
    StopAt(s, 1.0 - c, MARGIN);
  }

  /** At every frequency the gain is at most one, to TOLERANCE. */
  ghost predicate NeverAmplifies(cs: seq<Section>) {
    forall c :: -1.0 <= c <= 1.0 ==> GainIsAtMostOne(cs, c)
  }

  ghost predicate GainIsAtMostOne(cs: seq<Section>, c: real) {
    DampOf(cs, c) != 0.0 && -TOLERANCE <= SquaredGain(cs, c) <= 1.0 + TOLERANCE
  }

  /** No frequency comes out with more power than it went in with. */
  lemma NothingIsAmplified(samplingRate: int)
    requires HasDesign(samplingRate)
    ensures NeverAmplifies(Design(samplingRate))
  {
    hide ShapeOf, Response, SquaredGain, Design, IsButterworth, DampOf, Cube, SineSquared, Away;
    var cs, s := Design(samplingRate), ShapeOf(samplingRate);
    DesignsAreButterworth(samplingRate);
    forall c | -1.0 <= c <= 1.0
      ensures GainIsAtMostOne(cs, c)
    {
      GainIsResponse(cs, s, c);
      ResponseIsShare(s, 1.0 - c);
    }
  }

  /** At least this share of the power is left at a quarter of the sampling rate. */
  ghost predicate KeepsAtQuarter(cs: seq<Section>, share: real) {
    DampOf(cs, 0.0) != 0.0 && share <= SquaredGain(cs, 0.0)
  }

  /** And nearly all of it is left there. */
  lemma QuarterIsKept(samplingRate: int)
    requires HasDesign(samplingRate)
    ensures KeepsAtQuarter(Design(samplingRate), 0.998)
  {
    hide ShapeOf, Response, SquaredGain, Design, IsButterworth, DampOf, Cube, SineSquared, Away, IsShape;
    var s := ShapeOf(samplingRate);
    DesignsAreButterworth(samplingRate);
    GainIsResponse(Design(samplingRate), s, 0.0);
    QuarterResponse(samplingRate);
  }

  lemma ResponseIsShare(s: Shape, t: real)
    requires IsShape(s) && 0.0 <= t <= 2.0
    ensures 0.0 < Cube(SineSquared(t)) + Cube(Away(s, t)) && 0.0 <= Response(s, t) <= 1.0
  {
    MassFacts(s, t);
    hide Cube, SineSquared, Away, Mass, Over, IsShape;
    QuotientBetween(Cube(SineSquared(t)), Cube(SineSquared(t)) + Cube(Away(s, t)));
  }

  predicate SmallAtQuarter(turn: real, centre: real) {
    Cube(turn * Square(1.0 - centre)) <= 0.0015
  }

  lemma QuartersAreSmall(samplingRate: int)
    requires HasDesign(samplingRate)
    ensures SmallAtQuarter(ShapeOf(samplingRate).turn, ShapeOf(samplingRate).centre)
  {
  }

  lemma QuarterResponse(samplingRate: int)
    requires HasDesign(samplingRate) && IsShape(ShapeOf(samplingRate))
    ensures 0.0 < Cube(SineSquared(1.0)) + Cube(Away(ShapeOf(samplingRate), 1.0))
    ensures 0.9985 <= Response(ShapeOf(samplingRate), 1.0)
  {
    var s := ShapeOf(samplingRate);
    QuartersAreSmall(samplingRate);
    hide ShapeOf;
    MassFacts(s, 1.0);
    assert Cube(SineSquared(1.0)) == 1.0;
    assert Cube(Away(s, 1.0)) <= 0.0015;
    hide Cube, Away, SineSquared, Mass;
    Quotient(1.0, 1.0 + Cube(Away(s, 1.0)));
    NearlyOne(Response(s, 1.0), 1.0 + Cube(Away(s, 1.0)));
  }

  lemma NearlyOne(y: real, m: real)
    requires 0.0 < m <= 1.0015 && Product(y, m) == 1.0
    ensures 0.9985 <= y
  {
    if y < 0.9985 {
      ProductIsPositive(0.9985 - y, m);
    }
  }

  // ---------- What a tone comes out as ----------

  /** Where a design starts on a signal. */
  function StartOf(samplingRate: int, first: real, steadyState: bool): (zs: seq<State>)
    requires HasDesign(samplingRate)
    ensures |zs| == 3
  {
    if steadyState then Primed(Design(samplingRate), first) else AtRest(3)
  }

  lemma BandpassedIsStage(samplingRate: int, x: Stream, n: nat, steadyState: bool, i: nat)
    requires HasDesign(samplingRate) && i < n
    ensures Bandpassed(Excerpt(x, 0, n), samplingRate, steadyState)[i]
            == CascadeStage(Design(samplingRate), StartOf(samplingRate, x(0), steadyState), x)(i)
  {
    hide Design, CascadeRun, CascadeStage, Primed;
    RunFromStart(Design(samplingRate), StartOf(samplingRate, x(0), steadyState), x, n, i);
  }

  /** However many samples of x are filtered, what comes out differs from y by less and less, geometrically. */
  ghost predicate SettlesTo(samplingRate: int, x: Stream, steadyState: bool, y: Stream, rate: real, scale: real)
    requires HasDesign(samplingRate)
  {
    forall n: nat, i: nat | i < n ::
      Square(Bandpassed(Excerpt(x, 0, n), samplingRate, steadyState)[i] - y(i)) <= Product(scale, Power(rate, i / 2))
  }

  /**
   Every design, primed or at rest, turns a tone of any frequency, power and phase into a tone of
   that frequency whose power is that of the input times the design's gain there.
   */
  lemma TonesSettle(samplingRate: int, w: Complex, x: Complex, steadyState: bool)
    requires HasDesign(samplingRate) && IsTurn(w)
    ensures -1.0 <= w.re <= 1.0
    ensures exists y: Complex, rate, scale ::
              && SquaredModulus(y) == Product(Gain(samplingRate, w.re), SquaredModulus(x))
              && 0.0 <= rate < 1.0 && SettlesTo(samplingRate, Tone(w, x), steadyState, Tone(w, y), rate, scale)
  {
    TurnCosine(w);
    DesignsAreSound(samplingRate);
    var zs := StartOf(samplingRate, Tone(w, x)(0), steadyState);
    hide Design, StartOf, Tone, SquaredModulus, IsTurn, DecaysBy, CascadeStage, Through, SettlesTo, AllStable, Product;
    hide DampOf, SquaredGain;
    var y := Through(Design(samplingRate), w, x);
    DesignsDamp(samplingRate, w.re);
    PowerOfAnswer(Design(samplingRate), w, x);
    TonesComeThrough(Design(samplingRate), zs, w, x);
    var rate, scale :| 0.0 <= rate < 1.0 && 0.0 <= scale
      && DecaysBy(Difference(CascadeStage(Design(samplingRate), zs, Tone(w, x)), Tone(w, y)), rate, scale);
    SettlesBy(samplingRate, Tone(w, x), steadyState, Tone(w, y), rate, scale);
  }

  lemma PowerOfAnswer(cs: seq<Section>, w: Complex, x: Complex)
    requires AllStable(cs) && IsTurn(w) && DampOf(cs, w.re) != 0.0
    ensures SquaredModulus(Through(cs, w, x)) == Product(SquaredGain(cs, w.re), SquaredModulus(x))
  {
    hide Through, SquaredModulus, IsTurn, AllStable, DampOf, StrengthOf, Product, Over;
    PowerThrough(cs, w, x);
    Quotiented(SquaredModulus(Through(cs, w, x)), DampOf(cs, w.re), StrengthOf(cs, w.re), SquaredModulus(x));
  }

  lemma PowerThrough(cs: seq<Section>, w: Complex, x: Complex)
    requires AllStable(cs) && IsTurn(w)
    ensures Product(DampOf(cs, w.re), SquaredModulus(Through(cs, w, x)))
            == Product(StrengthOf(cs, w.re), SquaredModulus(x))
  {
    hide Through, SquaredModulus, IsTurn, AllStable, DampOf, StrengthOf;
    ThroughStrength(cs, w, x);
  }

  lemma Quotiented(my: real, d: real, s: real, mx: real)
    requires d != 0.0 && Product(d, my) == Product(s, mx)
    ensures my == Product(Over(s, d), mx)
  {
    var g := Over(s, d);
    assert g * d == s;
    assert d * (g * mx) == (g * d) * mx;
    Cancelled(d, my, g * mx);
  }

  lemma SettlesBy(samplingRate: int, x: Stream, steadyState: bool, y: Stream, rate: real, scale: real)
    requires HasDesign(samplingRate)
    requires DecaysBy(Difference(CascadeStage(Design(samplingRate), StartOf(samplingRate, x(0), steadyState), x), y),
                      rate, scale)
    ensures SettlesTo(samplingRate, x, steadyState, y, rate, scale)
  {
    hide Design, StartOf, CascadeStage, Bandpassed, Square, Product, Power;
    var z := CascadeStage(Design(samplingRate), StartOf(samplingRate, x(0), steadyState), x);
    forall n: nat, i: nat | i < n
      ensures Square(Bandpassed(Excerpt(x, 0, n), samplingRate, steadyState)[i] - y(i))
              <= Product(scale, Power(rate, i / 2))
    {
      BandpassedIsStage(samplingRate, x, n, steadyState, i);
      assert Difference(z, y)(i) == z(i) - y(i);
    }
  }
}
