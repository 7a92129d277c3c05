/**
 What a filter does to a tone.

 A tone is the real part of a phasor that turns by a fixed angle at every sample, the angle
 given by a point on the unit circle.  A section answers it, once settled, with a tone of the
 same frequency, whose power is that of the input times the squared gain at that frequency.
 */
module Tones {
  import opened RealAlgebra
  import opened Biquads
  import opened Cascades
  import opened Stability
  import opened Decay

  datatype Complex = Complex(re: real, im: real)

  function Times(u: Complex, v: Complex): Complex {
    Complex(u.re * v.re - u.im * v.im, u.re * v.im + u.im * v.re)
  }

  function Added(u: Complex, v: Complex): Complex {
    Complex(u.re + v.re, u.im + v.im)
  }

  function Scaled(k: real, u: Complex): Complex {
    Complex(k * u.re, k * u.im)
  }

  function Conjugate(u: Complex): Complex {
    Complex(u.re, -u.im)
  }

  /** The square of the modulus: the power of a tone. */
  function SquaredModulus(u: Complex): real {
    Square(u.re) + Square(u.im)
  }

  /** A point on the unit circle: what a phasor turns by from one sample to the next. */
  predicate IsTurn(w: Complex) {
    SquaredModulus(w) == 1.0
  }

  lemma ModulusOfProduct(u: Complex, v: Complex)
    ensures SquaredModulus(Times(u, v)) == SquaredModulus(u) * SquaredModulus(v)
  {
  }

  lemma TimesCommutes(u: Complex, v: Complex)
    ensures Times(u, v) == Times(v, u)
  {
  }

  lemma TimesAssociates(u: Complex, v: Complex, x: Complex)
    ensures Times(Times(u, v), x) == Times(u, Times(v, x))
  {
  }

  lemma TimesScales(u: Complex, k: real, v: Complex)
    ensures Times(u, Scaled(k, v)) == Scaled(k, Times(u, v))
  {
  }

  lemma TurnsBack(w: Complex, x: Complex)
    requires IsTurn(w)
    ensures Times(Conjugate(w), Times(w, x)) == x
  {
    TimesAssociates(Conjugate(w), w, x);
    assert Times(Conjugate(w), w) == Complex(1.0, 0.0);
    assert Times(Complex(1.0, 0.0), x) == x;
  }

  // ---------- The squared gain ----------

  /** k0 + k1/z + k2/z^2 at the point z of the unit circle. */
  function AtTurn(k0: real, k1: real, k2: real, w: Complex): Complex {
    var d := Conjugate(w);
    Added(Complex(k0, 0.0), Added(Scaled(k1, d), Scaled(k2, Times(d, d))))
  }

  /** Its power, which depends on the cosine of the angle alone. */
  function SquaredAt(k0: real, k1: real, k2: real, c: real): real {
    Square(k0) + Square(k1) + Square(k2) + 2.0 * (k0 * k1 + k1 * k2) * c + 2.0 * (k0 * k2) * (2.0 * (c * c) - 1.0)
  }

  lemma ModulusAtTurn(k0: real, k1: real, k2: real, w: Complex)
    requires IsTurn(w)
    ensures SquaredModulus(AtTurn(k0, k1, k2, w)) == SquaredAt(k0, k1, k2, w.re)
  {
    AtTurnIs(k0, k1, k2, w.re, w.im);
    DoubleAngle(w.re, w.im, w.re * w.re, w.im * w.im);
    hide AtTurn;
    var q := 2.0 * (w.re * w.re) - 1.0;
    SameProduct(k2, w.re * w.re - w.im * w.im, q);
    Expanded(k0, k1, k2, w.re, w.im, q, 2.0 * (w.re * w.im));
    hide Square;
  }

  lemma AtTurnIs(k0: real, k1: real, k2: real, c: real, s: real)
    ensures AtTurn(k0, k1, k2, Complex(c, s))
            == Complex(k0 + (k1 * c + k2 * (c * c - s * s)), -(k1 * s + k2 * (2.0 * (c * s))))
  {
    hide Times;
    TurnedTwice(c, s);
    assert k1 * (-s) == -(k1 * s) && k2 * -(2.0 * (c * s)) == -(k2 * (2.0 * (c * s)));
  }

  lemma TurnedTwice(c: real, s: real)
    ensures Times(Complex(c, -s), Complex(c, -s)) == Complex(c * c - s * s, -(2.0 * (c * s)))
  {
  }

  /** cos 2x and sin 2x, from cos x and sin x. */
  lemma DoubleAngle(c: real, s: real, cc: real, ss: real)
    requires cc == c * c && ss == s * s && cc + ss == 1.0
    ensures (2.0 * cc - 1.0) * (2.0 * cc - 1.0) + (2.0 * (c * s)) * (2.0 * (c * s)) == 1.0
    ensures c * (2.0 * cc - 1.0) + s * (2.0 * (c * s)) == c
  {
    assert (c * s) * (c * s) == cc * ss;
    assert (cc - ss) * (cc - ss) + 4.0 * (cc * ss) == (cc + ss) * (cc + ss);
    assert s * (2.0 * (c * s)) == 2.0 * (c * ss) && c * (cc + ss) == c;
  }

  lemma Expanded(k0: real, k1: real, k2: real, p: real, r: real, q: real, v: real)
    requires p * p + r * r == 1.0 && q * q + v * v == 1.0 && p * q + r * v == p
    ensures Square(k0 + (k1 * p + k2 * q)) + Square(-(k1 * r + k2 * v))
            == Square(k0) + Square(k1) + Square(k2) + 2.0 * (k0 * k1 + k1 * k2) * p + 2.0 * (k0 * k2) * q
  {
    Crossed(k1, k2, p, r, q, v);
    assert Square(k0 + (k1 * p + k2 * q)) == Square(k0) + 2.0 * (k0 * (k1 * p + k2 * q)) + Square(k1 * p + k2 * q);
  }

  lemma Crossed(k1: real, k2: real, p: real, r: real, q: real, v: real)
    requires p * p + r * r == 1.0 && q * q + v * v == 1.0 && p * q + r * v == p
    ensures Square(k1 * p + k2 * q) + Square(-(k1 * r + k2 * v)) == Square(k1) + Square(k2) + 2.0 * (k1 * k2) * p
  {
    assert Square(k1 * p + k2 * q) == Square(k1) * (p * p) + 2.0 * (k1 * k2) * (p * q) + Square(k2) * (q * q);
    assert Square(-(k1 * r + k2 * v)) == Square(k1) * (r * r) + 2.0 * (k1 * k2) * (r * v) + Square(k2) * (v * v);
  }

  /** The squared gain of a section at the frequency of cosine c: this over the same of its denominator. */
  function Strength(b: Section, c: real): real {
    SquaredAt(b.b0, b.b1, b.b2, c)
  }

  function Damp(b: Section, c: real): real {
    SquaredAt(1.0, b.a1, b.a2, c)
  }

  lemma CompletedSquares(a1: real, a2: real, c: real)
    ensures SquaredAt(1.0, a1, a2, c)
            == Square(a1 + (1.0 + a2) * c) + Square(1.0 - a2) * (1.0 - c * c)
  {
  }

  /** No stable section has a pole on the unit circle. */
  lemma StableDamps(b: Section, c: real)
    requires Stable(b) && -1.0 <= c <= 1.0
    ensures 0.0 < Damp(b, c)
  {
    CompletedSquares(b.a1, b.a2, c);
    SquareIsPositive(1.0 - b.a2);
    SquareIsNonNegative(b.a1 + (1.0 + b.a2) * c);
    hide Square;
    if c == 1.0 || c == -1.0 {
      EndsDamp(b, c);
    } else {
      ProductOfPositives(1.0 - c, 1.0 + c, 1.0 - c * c);
      ProductIsPositive(Square(1.0 - b.a2), 1.0 - c * c);
    }
  }

  lemma EndsDamp(b: Section, c: real)
    requires Stable(b) && (c == 1.0 || c == -1.0)
    ensures 0.0 < Square(b.a1 + (1.0 + b.a2) * c) && c * c == 1.0
  {
    if c == 1.0 {
      SquareIsPositive(b.a1 + (1.0 + b.a2) * c);
    } else {
      SquareIsPositive(-(b.a1 + (1.0 + b.a2) * c));
    }
  }

  lemma TurnCosine(w: Complex)
    requires IsTurn(w)
    ensures -1.0 <= w.re <= 1.0
  {
    SquareIsNonNegative(w.im);
    if 1.0 < w.re {
      ProductIsPositive(w.re - 1.0, w.re + 1.0);
    }
    if w.re < -1.0 {
      ProductIsPositive(-w.re - 1.0, 1.0 - w.re);
    }
  }

  // ---------- One section and a tone ----------

  /** The phasor one sample on. */
  function Turned(w: Complex, u: Complex): Complex {
    Times(w, u)
  }

  /** The phasor after n samples. */
  function Phasor(w: Complex, u: Complex, n: nat): Complex {
    if n == 0 then u else Turned(w, Phasor(w, u, n - 1))
  }

  /** The tone itself: the real part of the phasor. */
  function Tone(w: Complex, u: Complex): Stream {
    (n: nat) => Phasor(w, u, n).re
  }

  lemma {:induction false} PhasorKeepsModulus(w: Complex, u: Complex, n: nat)
    requires IsTurn(w)
    ensures SquaredModulus(Phasor(w, u, n)) == SquaredModulus(u)
  {
    if n != 0 {
      PhasorKeepsModulus(w, u, n - 1);
      ModulusOfProduct(w, Phasor(w, u, n - 1));
    }
  }

  /** y answers x: A y == B x, for the section's denominator A and numerator B at w. */
  predicate Answers(c: Section, w: Complex, x: Complex, y: Complex) {
    Times(AtTurn(1.0, c.a1, c.a2, w), y) == Times(AtTurn(c.b0, c.b1, c.b2, w), x)
  }

  /** The phasor that a section settles in answer to x. */
  function Answer(c: Section, w: Complex, x: Complex): Complex
    requires SquaredModulus(AtTurn(1.0, c.a1, c.a2, w)) != 0.0
  {
    var a, b := AtTurn(1.0, c.a1, c.a2, w), AtTurn(c.b0, c.b1, c.b2, w);
    Scaled(1.0 / SquaredModulus(a), Times(Conjugate(a), Times(b, x)))
  }

  lemma DividedBack(a: Complex, v: Complex)
    requires SquaredModulus(a) != 0.0
    ensures Times(a, Scaled(1.0 / SquaredModulus(a), Times(Conjugate(a), v))) == v
  {
    var k, m := 1.0 / SquaredModulus(a), SquaredModulus(a);
    TimesScales(a, k, Times(Conjugate(a), v));
    TimesAssociates(a, Conjugate(a), v);
    assert k * m == 1.0;
    TimesConjugate(a, v);
    hide Times, Scaled, SquaredModulus, Conjugate;
    Unscaled(k, m, v);
  }

  lemma TimesConjugate(a: Complex, v: Complex)
    ensures Times(Times(a, Conjugate(a)), v) == Scaled(SquaredModulus(a), v)
  {
    assert Times(a, Conjugate(a)) == Complex(SquaredModulus(a), 0.0);
  }

  lemma Unscaled(k: real, m: real, v: Complex)
    requires k * m == 1.0
    ensures Scaled(k, Scaled(m, v)) == v
  {
    assert k * (m * v.re) == (k * m) * v.re && k * (m * v.im) == (k * m) * v.im;
  }

  lemma AnswerAnswers(c: Section, w: Complex, x: Complex)
    requires SquaredModulus(AtTurn(1.0, c.a1, c.a2, w)) != 0.0
    ensures Answers(c, w, x, Answer(c, w, x))
  {
    hide AtTurn, Times, SquaredModulus, Conjugate, Scaled;
    DividedBack(AtTurn(1.0, c.a1, c.a2, w), Times(AtTurn(c.b0, c.b1, c.b2, w), x));
  }

  /** The power of the answer is that of the input times the squared gain. */
  lemma AnswerStrength(c: Section, w: Complex, x: Complex, y: Complex)
    requires IsTurn(w) && Answers(c, w, x, y)
    ensures Damp(c, w.re) * SquaredModulus(y) == Strength(c, w.re) * SquaredModulus(x)
  {
    hide AtTurn, Times, SquaredModulus, SquaredAt, IsTurn;
    ModulusOfProduct(AtTurn(1.0, c.a1, c.a2, w), y);
    ModulusOfProduct(AtTurn(c.b0, c.b1, c.b2, w), x);
    ModulusAtTurn(1.0, c.a1, c.a2, w);
    ModulusAtTurn(c.b0, c.b1, c.b2, w);
  }

  /** The phasor one sample back. */
  function Back(w: Complex, u: Complex): Complex {
    Times(Conjugate(w), u)
  }

  /** The two samples before of a tone and of its answer. */
  function Before(w: Complex, x: Complex, y: Complex): History {
    History(Back(w, x).re, Back(w, Back(w, x)).re, Back(w, y).re, Back(w, Back(w, y)).re)
  }

  /** The state in which a section has settled into the tone. */
  function Settled(c: Section, w: Complex, x: Complex, y: Complex): State {
    StateAfter(c, Before(w, x, y))
  }

  lemma QuadraticOf(k0: real, k1: real, k2: real, w: Complex, x: Complex)
    ensures Times(AtTurn(k0, k1, k2, w), x).re == k0 * x.re + k1 * Back(w, x).re + k2 * Back(w, Back(w, x)).re
  {
    var d := Conjugate(w);
    TimesAssociates(d, d, x);
    hide Conjugate;
    var dd := Times(d, d);
    assert Times(dd, x) == Back(w, Back(w, x));
    assert Times(AtTurn(k0, k1, k2, w), x).re == k0 * x.re + k1 * Times(d, x).re + k2 * Times(dd, x).re by {
      QuadraticAlgebra(k0, k1, k2, d, dd, x);
    }
  }

  lemma QuadraticAlgebra(k0: real, k1: real, k2: real, d: Complex, dd: Complex, x: Complex)
    ensures Times(Added(Complex(k0, 0.0), Added(Scaled(k1, d), Scaled(k2, dd))), x).re
            == k0 * x.re + k1 * Times(d, x).re + k2 * Times(dd, x).re
  {
  }

  /** A settled section answers the next sample of the tone, and stays settled. */
  lemma SettledStep(c: Section, w: Complex, x: Complex, y: Complex)
    requires IsTurn(w) && Answers(c, w, x, y)
    ensures Output(c, Settled(c, w, x, y), x.re) == y.re
    ensures Next(c, Settled(c, w, x, y), x.re) == Settled(c, w, Turned(w, x), Turned(w, y))
  {
    QuadraticOf(1.0, c.a1, c.a2, w, y);
    QuadraticOf(c.b0, c.b1, c.b2, w, x);
    hide AtTurn, Times, Next, Conjugate, IsTurn;
    NextTracksHistory(c, Before(w, x, y), x.re);
    TurnsBack(w, x);
    TurnsBack(w, y);
    ScaledOutput(1.0, c, Before(w, x, y), x.re);
  }

  // ---------- A cascade and a tone ----------

  lemma StableAnswers(c: Section, w: Complex)
    requires Stable(c) && IsTurn(w)
    ensures 0.0 < SquaredModulus(AtTurn(1.0, c.a1, c.a2, w))
  {
    TurnCosine(w);
    StableDamps(c, w.re);
    ModulusAtTurn(1.0, c.a1, c.a2, w);
    hide Stable, AtTurn, SquaredModulus, SquaredAt;
  }

  /** The phasor a stable cascade settles in, each section answering the one before. */
  function Through(cs: seq<Section>, w: Complex, x: Complex): Complex
    requires AllStable(cs) && IsTurn(w)
    decreases |cs|
  {
    if cs == [] then x else
    StableAnswers(cs[0], w);
    Through(cs[1..], w, Answer(cs[0], w, x))
  }

  /** The states in which a stable cascade has settled into the tone. */
  function SettledAll(cs: seq<Section>, w: Complex, x: Complex): (zs: seq<State>)
    requires AllStable(cs) && IsTurn(w)
    ensures |zs| == |cs|
    decreases |cs|
  {
    if cs == [] then [] else
    StableAnswers(cs[0], w);
    var y := Answer(cs[0], w, x);
    [Settled(cs[0], w, x, y)] + SettledAll(cs[1..], w, y)
  }

  /** The squared gain of a cascade is the product of these two, the second dividing. */
  function StrengthOf(cs: seq<Section>, c: real): real {
    if cs == [] then 1.0 else Strength(cs[0], c) * StrengthOf(cs[1..], c)
  }

  function DampOf(cs: seq<Section>, c: real): real {
    if cs == [] then 1.0 else Damp(cs[0], c) * DampOf(cs[1..], c)
  }

  lemma {:induction false} StableCascadeDamps(cs: seq<Section>, c: real)
    requires AllStable(cs) && -1.0 <= c <= 1.0
    ensures 0.0 < DampOf(cs, c)
    decreases |cs|
  {
    if cs != [] {
      StableDamps(cs[0], c);
      StableCascadeDamps(cs[1..], c);
      ProductIsPositive(Damp(cs[0], c), DampOf(cs[1..], c));
    }
  }

  lemma ChainedStrength(d0: real, d: real, s0: real, s: real, mx: real, my: real, mz: real)
    requires d0 * my == s0 * mx && d * mz == s * my
    ensures (d0 * d) * mz == (s0 * s) * mx
  {
    assert (d0 * d) * mz == d0 * (s * my) == s * (d0 * my);
  }

  /** The power of what comes through is that of the input times the squared gain. */
  lemma {:induction false} ThroughStrength(cs: seq<Section>, w: Complex, x: Complex)
    requires AllStable(cs) && IsTurn(w)
    ensures DampOf(cs, w.re) * SquaredModulus(Through(cs, w, x)) == StrengthOf(cs, w.re) * SquaredModulus(x)
    decreases |cs|
  {
    hide Damp, Strength, SquaredModulus, Answer, IsTurn;
    if cs != [] {
      StableAnswers(cs[0], w);
      var y := Answer(cs[0], w, x);
      AnswerAnswers(cs[0], w, x);
      AnswerStrength(cs[0], w, x, y);
      ThroughStrength(cs[1..], w, y);
      ChainedStrength(Damp(cs[0], w.re), DampOf(cs[1..], w.re), Strength(cs[0], w.re), StrengthOf(cs[1..], w.re),
                      SquaredModulus(x), SquaredModulus(y), SquaredModulus(Through(cs[1..], w, y)));
    }
  }

  lemma TurnedAnswer(c: Section, w: Complex, x: Complex)
    requires SquaredModulus(AtTurn(1.0, c.a1, c.a2, w)) != 0.0
    ensures Answer(c, w, Turned(w, x)) == Turned(w, Answer(c, w, x))
  {
    var a, b := AtTurn(1.0, c.a1, c.a2, w), AtTurn(c.b0, c.b1, c.b2, w);
    var k := 1.0 / SquaredModulus(a);
    hide AtTurn, Times, Conjugate, Scaled, SquaredModulus;
    SlidesOut(b, w, x);
    SlidesOut(Conjugate(a), w, Times(b, x));
    TimesScales(w, k, Times(Conjugate(a), Times(b, x)));
  }

  lemma SlidesOut(b: Complex, w: Complex, x: Complex)
    ensures Times(b, Times(w, x)) == Times(w, Times(b, x))
  {
    hide Times;
    TimesAssociates(b, w, x);
    TimesCommutes(b, w);
    TimesAssociates(w, b, x);
  }

  /** A settled cascade answers the next sample of the tone, and stays settled. */
  lemma {:induction false} SettledCascadeStep(cs: seq<Section>, w: Complex, x: Complex)
    requires AllStable(cs) && IsTurn(w)
    ensures CascadeOutput(cs, SettledAll(cs, w, x), x.re) == Through(cs, w, x).re
    ensures CascadeNext(cs, SettledAll(cs, w, x), x.re) == SettledAll(cs, w, Turned(w, x))
    ensures Through(cs, w, Turned(w, x)) == Turned(w, Through(cs, w, x))
    decreases |cs|
  {
    hide Answer, Settled, Output, Next, IsTurn, Turned, Answers, SquaredModulus;
    if cs != [] {
      StableAnswers(cs[0], w);
      var y := Answer(cs[0], w, x);
      AnswerAnswers(cs[0], w, x);
      SettledStep(cs[0], w, x, y);
      TurnedAnswer(cs[0], w, x);
      SettledCascadeStep(cs[1..], w, y);
      CascadeUnfolds(cs, Settled(cs[0], w, x, y), SettledAll(cs[1..], w, y), x.re);
    }
  }

  /** Started settled, a cascade answers the tone with the tone of the answering phasor. */
  lemma {:induction false} SettledStage(cs: seq<Section>, w: Complex, x: Complex, n: nat)
    requires AllStable(cs) && IsTurn(w)
    ensures StatesAt(cs, SettledAll(cs, w, x), Tone(w, x), n) == SettledAll(cs, w, Phasor(w, x, n))
    ensures CascadeStage(cs, SettledAll(cs, w, x), Tone(w, x))(n) == Tone(w, Through(cs, w, x))(n)
    ensures Through(cs, w, Phasor(w, x, n)) == Phasor(w, Through(cs, w, x), n)
    decreases n
  {
    hide SettledAll, Through, CascadeOutput, CascadeNext, IsTurn, AllStable, Turned, StatesAt, CascadeStage, Phasor;
    var zs, y := SettledAll(cs, w, x), Through(cs, w, x);
    if n == 0 {
      FirstPhasor(w, x);
      FirstPhasor(w, y);
      CascadeStep(cs, zs, Tone(w, x), 0);
    } else {
      SettledStage(cs, w, x, n - 1);
      SettledCascadeStep(cs, w, Phasor(w, x, n - 1));
      NextPhasor(w, x, n - 1);
      NextPhasor(w, y, n - 1);
      CascadeStep(cs, zs, Tone(w, x), n - 1);
      CascadeStep(cs, zs, Tone(w, x), n);
    }
    SettledCascadeStep(cs, w, Phasor(w, x, n));
  }

  lemma FirstPhasor(w: Complex, u: Complex)
    ensures Phasor(w, u, 0) == u
  {
  }

  lemma NextPhasor(w: Complex, u: Complex, n: nat)
    ensures Phasor(w, u, n + 1) == Turned(w, Phasor(w, u, n))
  {
  }

  /**
   A stable cascade of any number of sections, in whatever states it starts, answers a tone of
   any frequency, strength and phase with the tone that Through gives it, up to a difference
   that fades geometrically.
   */
  lemma TonesComeThrough(cs: seq<Section>, zs: seq<State>, w: Complex, x: Complex)
    requires AllStable(cs) && IsTurn(w) && |cs| == |zs|
    ensures Decays(Difference(CascadeStage(cs, zs, Tone(w, x)), Tone(w, Through(cs, w, x))))
  {
    var settled := SettledAll(cs, w, x);
    var y, z := CascadeStage(cs, zs, Tone(w, x)), CascadeStage(cs, settled, Tone(w, x));
    StartsAreForgotten(cs, zs, settled, Tone(w, x));
    hide SettledAll, Through, CascadeStage, IsTurn, AllStable, Decays;
    forall n: nat
      ensures Difference(y, z)(n) == Difference(y, Tone(w, Through(cs, w, x)))(n)
    {
      SettledStage(cs, w, x, n);
    }
    SameStreamDecays(Difference(y, z), Difference(y, Tone(w, Through(cs, w, x))));
  }
}
