/**
 One second-order section in its two realisations.

 Both are state machines over `real`; the classes at the end update their state in
 place, one sample at a time, and are tied to the functions of the first half.
 */
module Biquads {
  import opened Outcomes
  import opened RealAlgebra

  /** Three polynomial coefficients, lowest delay first, as the tables hold them. */
  datatype Taps = Taps(c0: real, c1: real, c2: real)

  /** A section divided through by a0, so that its own a0 is 1. */
  datatype Section = Section(b0: real, b1: real, b2: real, a1: real, a2: real)

  function Normalised(b: Taps, a: Taps): Section
    requires a.c0 != 0.0
  {
    Section(b.c0 / a.c0, b.c1 / a.c0, b.c2 / a.c0, a.c1 / a.c0, a.c2 / a.c0)
  }

  // ---------- The transposed form ----------

  datatype State = State(z1: real, z2: real)

  const REST: State := State(0.0, 0.0)

  function Output(c: Section, z: State, x: real): real {
    c.b0 * x + z.z1
  }

  function Next(c: Section, z: State, x: real): State {
    var y := Output(c, z, x);
    State(c.b1 * x - c.a1 * y + z.z2, c.b2 * x - c.a2 * y)
  }

  /** The outputs of a section started in state z and fed xs. */
  function Run(c: Section, z: State, xs: seq<real>): (ys: seq<real>)
    ensures |ys| == |xs|
    decreases |xs|
  {
    if xs == [] then [] else [Output(c, z, xs[0])] + Run(c, Next(c, z, xs[0]), xs[1..])
  }

  /** The state the same run ends in. */
  function Final(c: Section, z: State, xs: seq<real>): State
    decreases |xs|
  {
    if xs == [] then z else Final(c, Next(c, z, xs[0]), xs[1..])
  }

  /** 1 + a1 + a2: zero when a pole sits on the unit circle at DC. */
  function Denominator(c: Section): real {
    1.0 + c.a1 + c.a2
  }

  /** The primed z1 of a unit constant. */
  function UnitState(c: Section): real
    requires Denominator(c) != 0.0
  {
    (c.b1 - c.a1 * c.b0 + (c.b2 - c.a2 * c.b0)) / Denominator(c)
  }

  /** The state a constant `value` settles in, from the closed form of the 2x2 solve. */
  function Steady(c: Section, value: real): State {
    if Denominator(c) == 0.0 then REST else
    var zero := UnitState(c);
    State(value * zero, value * (c.b2 - c.a2 * c.b0 - c.a2 * zero))
  }

  /** What a section primed for `value` says it passes on to the next one. */
  function Passed(c: Section, value: real): real {
    if Denominator(c) == 0.0 then 0.0 else value * (c.b0 + c.b1 + c.b2) / Denominator(c)
  }

  /** The next state with the sample's share collected. */
  lemma NextCollected(c: Section, z: State, x: real)
    ensures Next(c, z, x) == State(x * (c.b1 - c.a1 * c.b0) - c.a1 * z.z1 + z.z2,
                                   x * (c.b2 - c.a2 * c.b0) - c.a2 * z.z1)
  {
  }

  // ---------- Direct form II ----------

  /** The numerator is held divided by its first coefficient, which is kept as the gain. */
  datatype DirectSection = DirectSection(gain: real, b1: real, b2: real, a1: real, a2: real)

  datatype DirectState = DirectState(s0: real, s1: real, s2: real)

  const DIRECT_REST: DirectState := DirectState(0.0, 0.0, 0.0)

  function GainDivided(b: Taps, a: Taps): DirectSection
    requires a.c0 != 0.0 && b.c0 != 0.0
  {
    var c := Normalised(b, a);
    DirectSection(c.b0, c.b1 / c.b0, c.b2 / c.b0, c.a1, c.a2)
  }

  function Recursion(d: DirectSection, s: DirectState, x: real): real {
    d.gain * x - d.a1 * s.s1 - d.a2 * s.s2
  }

  function DirectOutput(d: DirectSection, s: DirectState, x: real): real {
    d.b2 * s.s2 + (Recursion(d, s, x) + d.b1 * s.s1)
  }

  function DirectNext(d: DirectSection, s: DirectState, x: real): DirectState {
    DirectState(Recursion(d, s, x), Recursion(d, s, x), s.s1)
  }

  function DirectRun(d: DirectSection, s: DirectState, xs: seq<real>): (ys: seq<real>)
    ensures |ys| == |xs|
    decreases |xs|
  {
    if xs == [] then [] else [DirectOutput(d, s, xs[0])] + DirectRun(d, DirectNext(d, s, xs[0]), xs[1..])
  }

  function DirectFinal(d: DirectSection, s: DirectState, xs: seq<real>): DirectState
    decreases |xs|
  {
    if xs == [] then s else DirectFinal(d, DirectNext(d, s, xs[0]), xs[1..])
  }

  function DirectDenominator(d: DirectSection): real {
    1.0 + d.a1 + d.a2
  }

  function DirectSteady(d: DirectSection, value: real): DirectState {
    if DirectDenominator(d) == 0.0 then DIRECT_REST else
    var w := d.gain * value / DirectDenominator(d);
    DirectState(w, w, w)
  }

  function DirectPassed(d: DirectSection, value: real): real {
    if DirectDenominator(d) == 0.0 then 0.0
    else value * d.gain * (1.0 + d.b1 + d.b2) / DirectDenominator(d)
  }

  // ---------- The two forms compute the same thing ----------

  /** The one linear map from direct form II state to transposed state. */
  function Transposed(d: DirectSection, s: DirectState): State {
    State((d.b1 - d.a1) * s.s1 + (d.b2 - d.a2) * s.s2,
          (d.b2 - d.a2) * s.s1 + (d.b2 * d.a1 - d.a2 * d.b1) * s.s2)
  }

  /** The transposed section with the gain multiplied back in. */
  function Ungained(d: DirectSection): Section {
    Section(d.gain, d.gain * d.b1, d.gain * d.b2, d.a1, d.a2)
  }

  lemma UngainedIsNormalised(b: Taps, a: Taps)
    requires a.c0 != 0.0 && b.c0 != 0.0
    ensures Ungained(GainDivided(b, a)) == Normalised(b, a)
  {
    var c := Normalised(b, a);
    assert c.b0 != 0.0;
    assert c.b0 * (c.b1 / c.b0) == c.b1;
    assert c.b0 * (c.b2 / c.b0) == c.b2;
  }

  lemma RecursionIs(d: DirectSection, s: DirectState, x: real)
    ensures Recursion(d, s, x) == d.gain * x - d.a1 * s.s1 - d.a2 * s.s2
  {
  }

  lemma DirectOutputIs(d: DirectSection, s: DirectState, x: real)
    ensures DirectOutput(d, s, x) == d.b2 * s.s2 + (Recursion(d, s, x) + d.b1 * s.s1)
  {
  }

  lemma OutputSimulation(d: DirectSection, s: DirectState, x: real)
    ensures Output(Ungained(d), Transposed(d, s), x) == DirectOutput(d, s, x)
  {
  }

  /** What the transposed form's two delays become, w being what direct form II's recursion does. */
  lemma DelaySimulation(g: real, b1: real, b2: real, a1: real, a2: real, s1: real, s2: real, x: real, w: real, y: real)
    requires w == g * x - a1 * s1 - a2 * s2 && y == b2 * s2 + (w + b1 * s1)
    ensures (g * b1) * x - a1 * y + ((b2 - a2) * s1 + (b2 * a1 - a2 * b1) * s2) == (b1 - a1) * w + (b2 - a2) * s1
    ensures (g * b2) * x - a2 * y == (b2 - a2) * w + (b2 * a1 - a2 * b1) * s1
  {
    assert g * x == w + a1 * s1 + a2 * s2;
    assert (g * b1) * x == b1 * (g * x) && (g * b2) * x == b2 * (g * x);
  }

  lemma NextSimulation(d: DirectSection, s: DirectState, x: real)
    ensures Next(Ungained(d), Transposed(d, s), x) == Transposed(d, DirectNext(d, s, x))
  {
    OutputSimulation(d, s, x);
    DirectOutputIs(d, s, x);
    RecursionIs(d, s, x);
    hide Output, DirectOutput, Recursion;
    DelaySimulation(d.gain, d.b1, d.b2, d.a1, d.a2, s.s1, s.s2, x, Recursion(d, s, x),
                    Output(Ungained(d), Transposed(d, s), x));
  }

  /** One sample keeps the two states related, and the two forms answer it alike. */
  lemma StepSimulation(d: DirectSection, s: DirectState, x: real)
    ensures Output(Ungained(d), Transposed(d, s), x) == DirectOutput(d, s, x)
    ensures Next(Ungained(d), Transposed(d, s), x) == Transposed(d, DirectNext(d, s, x))
  {
    OutputSimulation(d, s, x);
    NextSimulation(d, s, x);
  }

  lemma {:induction false} RunSimulation(d: DirectSection, s: DirectState, xs: seq<real>)
    ensures Run(Ungained(d), Transposed(d, s), xs) == DirectRun(d, s, xs)
    ensures Final(Ungained(d), Transposed(d, s), xs) == Transposed(d, DirectFinal(d, s, xs))
    decreases |xs|
  {
    if xs != [] {
      StepSimulation(d, s, xs[0]);
      RunSimulation(d, DirectNext(d, s, xs[0]), xs[1..]);
    }
  }

  lemma SteadyAlgebra(g: real, b1: real, b2: real, a1: real, a2: real, d: real, h: real, v: real, u: real, w: real)
    requires d == 1.0 + a1 + a2 && h * d == g && u == h * (b1 - a1 + b2 - a2) && w == v * h
    ensures v * u == (b1 - a1) * w + (b2 - a2) * w
    ensures v * (g * b2 - a2 * g - a2 * u) == (b2 - a2) * w + (b2 * a1 - a2 * b1) * w
  {
    assert g == h + h * a1 + h * a2;
    assert v * (g * b2 - a2 * g - a2 * u)
           == v * ((h + h * a1 + h * a2) * (b2 - a2) - a2 * (h * (b1 - a1 + b2 - a2)));
  }

  lemma UnitQuotient(g: real, b1: real, b2: real, a1: real, a2: real, d: real, h: real)
    requires d == 1.0 + a1 + a2 && d != 0.0 && h * d == g
    ensures (g * b1 - a1 * g + (g * b2 - a2 * g)) / d == h * (b1 - a1 + b2 - a2)
  {
    assert (h * (b1 - a1 + b2 - a2)) * d == (h * d) * (b1 - a1 + b2 - a2);
    QuotientIs(g * b1 - a1 * g + (g * b2 - a2 * g), d, h * (b1 - a1 + b2 - a2));
  }

  lemma PassedAlgebra(g: real, b1: real, b2: real, v: real)
    ensures v * (g + g * b1 + g * b2) == v * g * (1.0 + b1 + b2)
  {
  }

  lemma PassedSimulation(d: DirectSection, value: real)
    ensures Passed(Ungained(d), value) == DirectPassed(d, value)
  {
    PassedAlgebra(d.gain, d.b1, d.b2, value);
  }

  lemma UnitOfUngained(d: DirectSection, n: real, h: real)
    requires n == DirectDenominator(d) && n != 0.0 && h * n == d.gain
    ensures UnitState(Ungained(d)) == h * (d.b1 - d.a1 + d.b2 - d.a2)
  {
    UnitQuotient(d.gain, d.b1, d.b2, d.a1, d.a2, n, h);
  }

  lemma SteadyIs(c: Section, value: real)
    requires Denominator(c) != 0.0
    ensures Steady(c, value)
            == State(value * UnitState(c), value * (c.b2 - c.a2 * c.b0 - c.a2 * UnitState(c)))
  {
    hide UnitState;
  }

  lemma DirectSteadyIs(d: DirectSection, value: real, n: real, h: real)
    requires n == DirectDenominator(d) && n != 0.0 && h * n == d.gain
    ensures DirectSteady(d, value) == DirectState(value * h, value * h, value * h)
  {
    QuotientIs(d.gain * value, n, value * h);
  }

  lemma PrimedSimulation(d: DirectSection, value: real, n: real, h: real)
    requires n == DirectDenominator(d) && n != 0.0 && h * n == d.gain
    ensures Steady(Ungained(d), value) == Transposed(d, DirectSteady(d, value))
  {
    UnitOfUngained(d, n, h);
    SteadyIs(Ungained(d), value);
    DirectSteadyIs(d, value, n, h);
    SteadyAlgebra(d.gain, d.b1, d.b2, d.a1, d.a2, n, h, value, UnitState(Ungained(d)), value * h);
    hide UnitState, Steady, DirectSteady, DirectDenominator;
  }

  /** Priming either form for a constant gives related states and the same constant onwards. */
  lemma SteadySimulation(d: DirectSection, value: real)
    ensures Steady(Ungained(d), value) == Transposed(d, DirectSteady(d, value))
    ensures Passed(Ungained(d), value) == DirectPassed(d, value)
  {
    PassedSimulation(d, value);
    var n := DirectDenominator(d);
    if n != 0.0 {
      var h := d.gain / n;
      assert h * n == d.gain;
      PrimedSimulation(d, value, n, h);
      hide Steady, DirectSteady, Passed, DirectPassed;
    }
  }

  /** The two forms of one filter answer every signal alike, from rest and primed for any constant. */
  lemma FormsAgree(b: Taps, a: Taps, value: real, xs: seq<real>)
    requires a.c0 != 0.0 && b.c0 != 0.0
    ensures Run(Normalised(b, a), REST, xs) == DirectRun(GainDivided(b, a), DIRECT_REST, xs)
    ensures Run(Normalised(b, a), Steady(Normalised(b, a), value), xs)
            == DirectRun(GainDivided(b, a), DirectSteady(GainDivided(b, a), value), xs)
    ensures Passed(Normalised(b, a), value) == DirectPassed(GainDivided(b, a), value)
  {
    var d := GainDivided(b, a);
    UngainedIsNormalised(b, a);
    SteadySimulation(d, value);
    assert Transposed(d, DIRECT_REST) == REST;
    RunSimulation(d, DIRECT_REST, xs);
    RunSimulation(d, DirectSteady(d, value), xs);
  }

  /** Whatever they have been fed since, the states of the two forms are related by the one map. */
  lemma FormsStayRelated(b: Taps, a: Taps, value: real, xs: seq<real>)
    requires a.c0 != 0.0 && b.c0 != 0.0
    ensures Final(Normalised(b, a), REST, xs)
            == Transposed(GainDivided(b, a), DirectFinal(GainDivided(b, a), DIRECT_REST, xs))
    ensures Final(Normalised(b, a), Steady(Normalised(b, a), value), xs)
            == Transposed(GainDivided(b, a),
                          DirectFinal(GainDivided(b, a), DirectSteady(GainDivided(b, a), value), xs))
  {
    var d := GainDivided(b, a);
    UngainedIsNormalised(b, a);
    SteadySimulation(d, value);
    assert Transposed(d, DIRECT_REST) == REST;
    RunSimulation(d, DIRECT_REST, xs);
    RunSimulation(d, DirectSteady(d, value), xs);
  }

  // ---------- What they compute: the difference equation ----------

  /** The two inputs and the two outputs before sample 0. */
  datatype History = History(x1: real, x2: real, y1: real, y2: real)

  /** s[i], reaching back into the two values before s[0]. */
  function At(s: seq<real>, before1: real, before2: real, i: int): real
    requires -2 <= i < |s|
  {
    if i >= 0 then s[i] else if i == -1 then before1 else before2
  }

  /** a0 y[n] + a1 y[n-1] + a2 y[n-2] == b0 x[n] + b1 x[n-1] + b2 x[n-2]. */
  ghost predicate BalancedAt(b: Taps, a: Taps, h: History, xs: seq<real>, ys: seq<real>, n: nat)
    requires n < |xs| == |ys|
  {
    a.c0 * ys[n] + a.c1 * At(ys, h.y1, h.y2, n - 1) + a.c2 * At(ys, h.y1, h.y2, n - 2)
    == b.c0 * xs[n] + b.c1 * At(xs, h.x1, h.x2, n - 1) + b.c2 * At(xs, h.x1, h.x2, n - 2)
  }

  /** ys is the response to xs of the transfer function b/a, given what came before. */
  ghost predicate Responds(b: Taps, a: Taps, h: History, xs: seq<real>, ys: seq<real>) {
    && |xs| == |ys|
    && forall n :: 0 <= n < |xs| ==> BalancedAt(b, a, h, xs, ys, n)
  }

  /** The transposed state that a history leaves behind. */
  function StateAfter(c: Section, h: History): State {
    State(c.b1 * h.x1 + c.b2 * h.x2 - c.a1 * h.y1 - c.a2 * h.y2, c.b2 * h.x1 - c.a2 * h.y1)
  }

  function Pushed(h: History, x: real, y: real): History {
    History(x, h.x1, y, h.y1)
  }

  lemma NextTracksHistory(c: Section, h: History, x: real)
    ensures Next(c, StateAfter(c, h), x) == StateAfter(c, Pushed(h, x, Output(c, StateAfter(c, h), x)))
  {
  }

  lemma ScaledOutput(k: real, c: Section, h: History, x: real)
    ensures k * Output(c, StateAfter(c, h), x)
            == (k * c.b0) * x + (k * c.b1) * h.x1 + (k * c.b2) * h.x2 - (k * c.a1) * h.y1 - (k * c.a2) * h.y2
  {
  }

  lemma FirstBalance(b: Taps, a: Taps, h: History, xs: seq<real>, ys: seq<real>)
    requires a.c0 != 0.0 && 0 < |xs| == |ys|
    ensures ys[0] == Output(Normalised(b, a), StateAfter(Normalised(b, a), h), xs[0])
            <==> BalancedAt(b, a, h, xs, ys, 0)
  {
    var c, x, y := Normalised(b, a), xs[0], ys[0];
    ScaledOutput(a.c0, c, h, x);
    Cancelled(a.c0, y, Output(c, StateAfter(c, h), x));
  }

  lemma ShiftedBalance(b: Taps, a: Taps, h: History, xs: seq<real>, ys: seq<real>, n: nat)
    requires 0 < n < |xs| == |ys|
    ensures BalancedAt(b, a, h, xs, ys, n)
            <==> BalancedAt(b, a, Pushed(h, xs[0], ys[0]), xs[1..], ys[1..], n - 1)
  {
  }

  /** A response is a balanced first sample followed by a response. */
  lemma RespondsUnfolds(b: Taps, a: Taps, h: History, xs: seq<real>, ys: seq<real>)
    requires 0 < |xs| == |ys|
    ensures Responds(b, a, h, xs, ys)
            <==> BalancedAt(b, a, h, xs, ys, 0) && Responds(b, a, Pushed(h, xs[0], ys[0]), xs[1..], ys[1..])
  {
    var h' := Pushed(h, xs[0], ys[0]);
    forall n | 0 < n < |xs|
      ensures BalancedAt(b, a, h, xs, ys, n) <==> BalancedAt(b, a, h', xs[1..], ys[1..], n - 1)
    {
      ShiftedBalance(b, a, h, xs, ys, n);
    }
    if Responds(b, a, h, xs, ys) {
      forall m | 0 <= m < |xs[1..]|
        ensures BalancedAt(b, a, h', xs[1..], ys[1..], m)
      {
        assert BalancedAt(b, a, h, xs, ys, m + 1);
      }
    }
  }

  /**
   The section answers a signal with the one response the transfer function b/a has to it:
   its outputs satisfy the difference equation at every sample, and no other outputs do.
   */
  lemma {:induction false} RunIsTheResponse(b: Taps, a: Taps, h: History, xs: seq<real>, ys: seq<real>)
    requires a.c0 != 0.0
    ensures ys == Run(Normalised(b, a), StateAfter(Normalised(b, a), h), xs) <==> Responds(b, a, h, xs, ys)
    decreases |xs|
  {
    hide Normalised, StateAfter, Output, Next, BalancedAt;
    var c := Normalised(b, a);
    var z := StateAfter(c, h);
    if xs != [] && |xs| == |ys| {
      FirstBalance(b, a, h, xs, ys);
      NextTracksHistory(c, h, xs[0]);
      RespondsUnfolds(b, a, h, xs, ys);
      RunIsTheResponse(b, a, Pushed(h, xs[0], ys[0]), xs[1..], ys[1..]);
      assert ys == Run(c, z, xs)
             <==> ys[0] == Output(c, z, xs[0]) && ys[1..] == Run(c, Next(c, z, xs[0]), xs[1..]) by {
        assert ys == [ys[0]] + ys[1..];
      }
    }
  }

  lemma UnitFacts(c: Section, value: real)
    requires Denominator(c) != 0.0
    ensures Denominator(c) * UnitState(c) == c.b1 + c.b2 - c.a1 * c.b0 - c.a2 * c.b0
    ensures value * (UnitState(c) + c.a1 * UnitState(c) + c.a2 * UnitState(c))
            == value * (c.b1 + c.b2 - c.a1 * c.b0 - c.a2 * c.b0)
    ensures Passed(c, value) == value * (c.b0 + UnitState(c))
  {
    var d, zero := Denominator(c), UnitState(c);
    var g := (c.b0 + c.b1 + c.b2) / d;
    assert d * g == c.b0 + c.b1 + c.b2;
    assert d * zero == c.b1 + c.b2 - c.a1 * c.b0 - c.a2 * c.b0;
    assert d * (c.b0 + zero) == d * g;
    Cancelled(d, c.b0 + zero, g);
    assert Passed(c, value) == value * g;
  }

  lemma SteadyIsLeftByTheConstant(c: Section, value: real)
    requires Denominator(c) != 0.0
    ensures Output(c, Steady(c, value), value) == Passed(c, value)
    ensures Steady(c, value) == StateAfter(c, History(value, value, Passed(c, value), Passed(c, value)))
  {
    UnitFacts(c, value);
    hide Passed, Denominator;
    var zero := UnitState(c);
    assert Steady(c, value) == State(value * zero, value * (c.b2 - c.a2 * c.b0 - c.a2 * zero));
    hide UnitState, Steady;
  }

  lemma FixedPointSum(c: Section, value: real, z: State)
    requires Next(c, z, value) == z
    ensures Denominator(c) * z.z1 == value * (c.b1 + c.b2 - c.a1 * c.b0 - c.a2 * c.b0)
    ensures z.z2 == value * c.b2 - value * (c.a2 * c.b0) - c.a2 * z.z1
  {
    assert z.z1 == c.b1 * value - c.a1 * (c.b0 * value + z.z1) + z.z2;
    assert z.z2 == c.b2 * value - c.a2 * (c.b0 * value + z.z1);
  }

  lemma SteadyUnfolds(c: Section, value: real)
    requires Denominator(c) != 0.0
    ensures var z := Steady(c, value);
            && z.z1 == value * UnitState(c)
            && z.z2 == value * c.b2 - value * (c.a2 * c.b0) - c.a2 * (value * UnitState(c))
  {
    hide UnitState;
  }

  lemma SteadyIsTheOnlyFixedPoint(c: Section, value: real, z: State)
    requires Denominator(c) != 0.0 && Next(c, z, value) == z
    ensures z == Steady(c, value)
  {
    hide Next, Steady, UnitState, Passed;
    var d, zero := Denominator(c), UnitState(c);
    UnitFacts(c, value);
    FixedPointSum(c, value, z);
    SteadyUnfolds(c, value);
    assert d * (value * zero) == value * (zero + c.a1 * zero + c.a2 * zero);
    Cancelled(d, z.z1, value * zero);
    SameProduct(c.a2, z.z1, value * zero);
  }

  lemma FixedPointAlgebra(b0: real, b1: real, b2: real, a1: real, a2: real, v: real, u: real, z1: real, z2: real)
    requires v * (u + a1 * u + a2 * u) == v * (b1 + b2 - a1 * b0 - a2 * b0)
    requires z1 == v * u && z2 == v * b2 - v * (a2 * b0) - a2 * (v * u)
    ensures b1 * v - a1 * (b0 * v + z1) + z2 == z1
    ensures b2 * v - a2 * (b0 * v + z1) == z2
  {
    assert a1 * z1 == a1 * (v * u) && a2 * z1 == a2 * (v * u);
  }

  lemma NextUnfolds(c: Section, z: State, x: real)
    ensures Next(c, z, x) == State(c.b1 * x - c.a1 * (c.b0 * x + z.z1) + z.z2, c.b2 * x - c.a2 * (c.b0 * x + z.z1))
  {
    var y := Output(c, z, x);
    SameProduct(c.a1, y, c.b0 * x + z.z1);
    SameProduct(c.a2, y, c.b0 * x + z.z1);
  }

  lemma SteadyIsAFixedPoint(c: Section, value: real)
    requires Denominator(c) != 0.0
    ensures Next(c, Steady(c, value), value) == Steady(c, value)
  {
    hide UnitState, Passed, Steady, Next, Output;
    var z := Steady(c, value);
    NextUnfolds(c, z, value);
    UnitFacts(c, value);
    SteadyUnfolds(c, value);
    FixedPointAlgebra(c.b0, c.b1, c.b2, c.a1, c.a2, value, UnitState(c), z.z1, z.z2);
  }

  /**
   Priming means what it says.  With no pole at DC the primed state is the one left by a
   constant that has been arriving for ever, it is the only state that constant leaves
   alone, and the constant passed on is the output that goes with it.
   */
  lemma SteadyIsTheFixedPoint(c: Section, value: real, z: State)
    requires Denominator(c) != 0.0
    ensures Next(c, z, value) == z <==> z == Steady(c, value)
    ensures Output(c, Steady(c, value), value) == Passed(c, value)
    ensures Steady(c, value) == StateAfter(c, History(value, value, Passed(c, value), Passed(c, value)))
  {
    hide Next, Steady, Output, Passed, StateAfter;
    if Next(c, z, value) == z {
      SteadyIsTheOnlyFixedPoint(c, value, z);
    }
    SteadyIsAFixedPoint(c, value);
    SteadyIsLeftByTheConstant(c, value);
  }

  // ---------- The sections themselves ----------

  class TransposedDirectFormII {
    const c: Section
    var z1: real
    var z2: real

    function Value(): State
      reads this
    {
      State(z1, z2)
    }

    constructor (b: Taps, a: Taps)
      requires a.c0 != 0.0
      ensures c == Normalised(b, a) && Value() == REST
    {
      c := Normalised(b, a);
      z1, z2 := 0.0, 0.0;
    }

    /** Builds a section at rest, refusing coefficients that cannot be normalised. */
    static method Create(b: Taps, a: Taps) returns (r: Result<TransposedDirectFormII>)
      ensures r.Throws? <==> a.c0 == 0.0
      ensures r.Throws? ==> r.exception == InvalidArgument
      ensures r.Ok? ==> fresh(r.value) && r.value.c == Normalised(b, a) && r.value.Value() == REST
    {
      if a.c0 == 0.0 {
        return Throws(InvalidArgument);
      }
      var section := new TransposedDirectFormII(b, a);
      return Ok(section);
    }

    /** Filters one sample. */
    method Apply(x: real) returns (y: real)
      modifies this
      ensures y == Output(c, old(Value()), x)
      ensures Value() == Next(c, old(Value()), x)
    {
      y := c.b0 * x + z1;
      z1 := c.b1 * x - c.a1 * y + z2;
      z2 := c.b2 * x - c.a2 * y;
    }

    method ResetInitialConditions()
      modifies this
      ensures Value() == REST
    {
      z1 := 0.0;
      z2 := 0.0;
    }

    /** Primes the section for a constant and says what it passes on. */
    method SetSteadyStateFor(value: real) returns (passed: real)
      modifies this
      ensures Value() == Steady(c, value)
      ensures passed == Passed(c, value)
    {
      var denominator := 1.0 + c.a1 + c.a2;
      if denominator == 0.0 {
        z1 := 0.0;
        z2 := 0.0;
        return 0.0;
      }
      var rhs0 := c.b1 - c.a1 * c.b0;
      var rhs1 := c.b2 - c.a2 * c.b0;
      var zero := (rhs0 + rhs1) / denominator;
      z1 := value * zero;
      z2 := value * (rhs1 - c.a2 * zero);
      return value * (c.b0 + c.b1 + c.b2) / denominator;
    }
  }

  class DirectFormII {
    const d: DirectSection
    var s0: real
    var s1: real
    var s2: real

    function Value(): DirectState
      reads this
    {
      DirectState(s0, s1, s2)
    }

    constructor (b: Taps, a: Taps)
      requires b.c0 != 0.0 && a.c0 != 0.0
      ensures d == GainDivided(b, a) && Value() == DIRECT_REST
    {
      var b0, b1, b2, a1, a2 := b.c0, b.c1, b.c2, a.c1, a.c2;
      if a.c0 != 1.0 {
        a1, a2 := a1 / a.c0, a2 / a.c0;
        b0, b1, b2 := b0 / a.c0, b1 / a.c0, b2 / a.c0;
      }
      d := DirectSection(b0, b1 / b0, b2 / b0, a1, a2);
      s0, s1, s2 := 0.0, 0.0, 0.0;
    }

    static method Create(b: Taps, a: Taps) returns (r: Result<DirectFormII>)
      ensures r.Throws? <==> b.c0 == 0.0 || a.c0 == 0.0
      ensures r.Throws? ==> r.exception == InvalidArgument
      ensures r.Ok? ==> fresh(r.value) && r.value.d == GainDivided(b, a) && r.value.Value() == DIRECT_REST
    {
      if b.c0 == 0.0 {
        return Throws(InvalidArgument);
      }
      if a.c0 == 0.0 {
        return Throws(InvalidArgument);
      }
      var section := new DirectFormII(b, a);
      return Ok(section);
    }

    method Apply(x: real) returns (y: real)
      modifies this
      ensures y == DirectOutput(d, old(Value()), x)
      ensures Value() == DirectNext(d, old(Value()), x)
    {
      var accumulator := d.gain * x;
      accumulator := accumulator - d.a1 * s1;
      accumulator := accumulator - d.a2 * s2;
      s0 := accumulator;
      accumulator := accumulator + d.b1 * s1;
      y := d.b2 * s2 + accumulator;
      s2 := s1;
      s1 := s0;
    }

    method ResetInitialConditions()
      modifies this
      ensures Value() == DIRECT_REST
    {
      s1, s2, s0 := 0.0, 0.0, 0.0;
    }

    method SetSteadyStateFor(value: real) returns (passed: real)
      modifies this
      ensures Value() == DirectSteady(d, value)
      ensures passed == DirectPassed(d, value)
    {
      var denominator := 1.0 + d.a1 + d.a2;
      if denominator == 0.0 {
        s0, s1, s2 := 0.0, 0.0, 0.0;
        return 0.0;
      }
      var w := d.gain * value / denominator;
      s0, s1, s2 := w, w, w;
      return value * d.gain * (1.0 + d.b1 + d.b2) / denominator;
    }
  }
}
