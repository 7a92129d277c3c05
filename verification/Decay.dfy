/** How fast stable sections forget: geometrically, for a cascade of any number of them. */
module Decay {
  import opened RealAlgebra
  import opened Biquads
  import opened Cascades
  import opened Stability

  /** The square of every sample is at most scale times a power of rate, one factor for every two samples. */
  ghost predicate DecaysBy(x: Stream, rate: real, scale: real) {
    forall n: nat :: Square(x(n)) <= Product(scale, Power(rate, n / 2))
  }

  ghost predicate Decays(x: Stream) {
    exists rate, scale :: 0.0 <= rate < 1.0 && 0.0 <= scale && DecaysBy(x, rate, scale)
  }

  /** A level from which two steps of the energy at this damping come down by this rate, inputs included. */
  predicate Sustains(damping: real, drive: real, scale: real, level: real, rate: real) {
    damping * level + 2.0 * (drive * scale) <= level * rate
  }

  /** One step of the induction, q and p being powers of the input's rate and of the energy's. */
  lemma DecayStep(e2: real, e0: real, x0: real, x1: real, damping: real, drive: real, scale: real,
                  level: real, rate: real, q: real, p: real, p': real)
    requires 0.0 <= damping && 0.0 <= drive && 0.0 <= scale && q <= p && 0.0 <= p && p' == Product(rate, p)
    requires e2 <= Product(damping, e0) + Product(drive, x0 + x1)
    requires e0 <= Product(level, p) && x0 <= Product(scale, q) && x1 <= Product(scale, q)
    requires Sustains(damping, drive, scale, level, rate)
    ensures e2 <= Product(level, p')
  {
    ProductIsNonNegative(damping, level * p - e0);
    ProductIsNonNegative(drive, 2.0 * (scale * q) - (x0 + x1));
    ProductIsNonNegative(drive, scale);
    ProductIsNonNegative(drive * scale, p - q);
    ProductIsNonNegative(p, level * rate - (damping * level + 2.0 * (drive * scale)));
  }

  lemma ScaledLess(scale: real, p: real, q: real)
    requires 0.0 <= scale && p <= q
    ensures Product(scale, p) <= Product(scale, q)
  {
    ProductIsNonNegative(scale, q - p);
  }

  lemma InputsDecay(x: Stream, rate: real, scale: real, rate': real, n: nat)
    requires 0.0 <= rate <= rate' <= 1.0 && 0.0 <= scale && DecaysBy(x, rate, scale)
    ensures Square(x(n)) <= Product(scale, Power(rate, n / 2))
    ensures Square(x(n + 1)) <= Product(scale, Power(rate, n / 2))
    ensures 0.0 <= Power(rate, n / 2) <= Power(rate', n / 2)
  {
    hide Square, Power, Product;
    PowerGrows(rate, rate', n / 2);
    PowerFalls(rate, n / 2);
    if (n + 1) / 2 != n / 2 {
      assert (n + 1) / 2 == n / 2 + 1;
      ScaledLess(scale, Power(rate, n / 2 + 1), Power(rate, n / 2));
    }
    assert Square(x(n + 1)) <= Product(scale, Power(rate, (n + 1) / 2));
  }

  lemma EnergyTwoStepsOn(c: Section, z: State, x: Stream, n: nat)
    requires Stable(c)
    ensures EnergyAlong(c, z, x)(n + 2)
            <= Product(Damping(c), EnergyAlong(c, z, x)(n)) + Product(Drive(c), Square(x(n)) + Square(x(n + 1)))
  {
    hide Energy, Damping, Drive, Next, Square, Product;
    var now := StateAt(c, z, x, n);
    NamedForcedSteps(c, now, x(n), x(n + 1));
    assert StateAt(c, z, x, n + 2) == Next(c, Next(c, now, x(n)), x(n + 1));
  }

  lemma EnergyDecayStep(c: Section, z: State, x: Stream, rate: real, scale: real, rate': real, level: real, m: nat)
    requires Stable(c) && 0.0 <= rate <= rate' <= 1.0 && 0.0 <= scale && DecaysBy(x, rate, scale)
    requires Sustains(Damping(c), Drive(c), scale, level, rate')
    requires EnergyAlong(c, z, x)(m) <= Product(level, Power(rate', m / 2))
    ensures EnergyAlong(c, z, x)(m + 2) <= Product(level, Power(rate', m / 2 + 1))
  {
    hide EnergyAlong, Damping, Drive, DecaysBy, Square, Sustains, Product, Power, Stable;
    EnergyTwoStepsOn(c, z, x, m);
    InputsDecay(x, rate, scale, rate', m);
    ConstantsBound(c);
    PowerUnfolds(rate', m / 2);
    DecayStep(EnergyAlong(c, z, x)(m + 2), EnergyAlong(c, z, x)(m), Square(x(m)), Square(x(m + 1)),
              Damping(c), Drive(c), scale, level, rate', Power(rate, m / 2), Power(rate', m / 2),
              Power(rate', m / 2 + 1));
  }

  lemma PowerUnfolds(r: real, n: nat)
    ensures Power(r, n + 1) == Product(r, Power(r, n))
  {
  }

  lemma FirstPower(level: real, r: real)
    ensures Product(level, Power(r, 0)) == level
  {
  }

  /** The energy along a run decays at any rate above its own and its input's, from a high enough level. */
  lemma {:induction false} EnergyDecaysBy(c: Section, z: State, x: Stream, rate: real, scale: real,
                                          rate': real, level: real, n: nat)
    requires Stable(c) && 0.0 <= rate <= rate' <= 1.0 && 0.0 <= scale && DecaysBy(x, rate, scale)
    requires EnergyAlong(c, z, x)(0) <= level && EnergyAlong(c, z, x)(1) <= level
    requires Sustains(Damping(c), Drive(c), scale, level, rate')
    ensures EnergyAlong(c, z, x)(n) <= Product(level, Power(rate', n / 2))
    decreases n
  {
    hide EnergyAlong, Damping, Drive, DecaysBy, Sustains, Product, Power, Stable;
    if n < 2 {
      assert n / 2 == 0;
      FirstPower(level, rate');
    } else {
      EnergyDecaysBy(c, z, x, rate, scale, rate', level, n - 2);
      EnergyDecayStep(c, z, x, rate, scale, rate', level, n - 2);
      assert n / 2 == (n - 2) / 2 + 1;
    }
  }

  /** A rate and a level from which the energy decays. */
  lemma RateAndLevel(damping: real, drive: real, rate: real, scale: real, e0: real, e1: real)
      returns (rate': real, level: real)
    requires 0.0 <= damping < 1.0 && 0.0 <= drive && 0.0 <= rate < 1.0 && 0.0 <= scale && 0.0 <= e0 && 0.0 <= e1
    ensures rate <= rate' < 1.0 && e0 <= level && e1 <= level && 0.0 <= level
    ensures Sustains(damping, drive, scale, level, rate')
  {
    rate' := if damping <= rate then (1.0 + rate) / 2.0 else (1.0 + damping) / 2.0;
    var room := rate' - damping;
    ProductIsNonNegative(drive, scale);
    var least := 2.0 * (drive * scale) / room;
    QuotientIsNonNegative(2.0 * (drive * scale), room);
    level := e0 + e1 + least;
    ProductIsNonNegative(e0 + e1, room);
    assert level * rate' == level * damping + (e0 + e1) * room + least * room;
  }

  lemma QuotientIsNonNegative(n: real, d: real)
    requires 0.0 <= n && 0.0 < d
    ensures 0.0 <= n / d && (n / d) * d == n
  {
    var q := n / d;
    assert q * d == n;
    if q < 0.0 {
      ProductIsPositive(-q, d);
    }
  }

  lemma StartingEnergies(c: Section, z: State, x: Stream)
    requires Stable(c)
    ensures 0.0 <= EnergyAlong(c, z, x)(0) && 0.0 <= EnergyAlong(c, z, x)(1)
  {
    hide Energy, Next, Slack, Square;
    var s0, s1 := StateAt(c, z, x, 0), StateAt(c, z, x, 1);
    EnergyIsNonNegative(c, s0);
    EnergyIsNonNegative(c, s1);
    ReflectionBound(c);
    SquareIsNonNegative(s0.z1);
    SquareIsNonNegative(s1.z1);
    ProductIsNonNegative(Slack(c), Square(s0.z1));
    ProductIsNonNegative(Slack(c), Square(s1.z1));
  }

  lemma OutputDecays(k: real, b: real, x: real, y: real, e: real, scale: real, level: real, q: real, p: real,
                     scale': real)
    requires 0.0 < k && 0.0 <= b && 0.0 <= scale && q <= p
    requires Product(k, y) <= 2.0 * Product(b, x) + 2.0 * e
    requires x <= Product(scale, q) && e <= Product(level, p)
    requires Product(k, scale') == 2.0 * Product(b, scale) + 2.0 * level
    ensures y <= Product(scale', p)
  {
    ProductIsNonNegative(b, scale * q - x);
    ProductIsNonNegative(b, scale);
    ProductIsNonNegative(b * scale, p - q);
    assert k * (scale' * p) == (k * scale') * p == 2.0 * ((b * scale) * p) + 2.0 * (level * p);
    if scale' * p < y {
      ProductIsPositive(k, y - scale' * p);
    }
  }

  lemma NamedOutputEnergy(c: Section, z: State, x: real)
    requires Stable(c)
    ensures Product(Slack(c), Square(Output(c, z, x))) <= 2.0 * Product(Square(c.b0), Square(x)) + 2.0 * Energy(c, z)
  {
    hide Slack, Square, Output, Energy;
    OutputEnergy(c, z, x);
  }

  lemma OutputScale(c: Section, scale: real, level: real) returns (scale': real)
    requires Stable(c) && 0.0 <= scale && 0.0 <= level
    ensures 0.0 <= scale' && Product(Slack(c), scale') == 2.0 * Product(Square(c.b0), scale) + 2.0 * level
  {
    ReflectionBound(c);
    SquareIsNonNegative(c.b0);
    hide Square, Slack;
    ProductIsNonNegative(Square(c.b0), scale);
    var total := 2.0 * (Square(c.b0) * scale) + 2.0 * level;
    QuotientIsNonNegative(total, Slack(c));
    scale' := total / Slack(c);
  }

  /** A stable section turns an input that decays geometrically into an output that does, from any state. */
  lemma StageDecays(c: Section, z: State, x: Stream)
    requires Stable(c) && Decays(x)
    ensures Decays(Stage(c, z, x))
  {
    hide EnergyAlong, Damping, Drive, DecaysBy, Stage, Square, Product, Sustains, Slack, Stable;
    var rate, scale :| 0.0 <= rate < 1.0 && 0.0 <= scale && DecaysBy(x, rate, scale);
    ConstantsBound(c);
    StartingEnergies(c, z, x);
    var e0, e1 := EnergyAlong(c, z, x)(0), EnergyAlong(c, z, x)(1);
    var rate', level := RateAndLevel(Damping(c), Drive(c), rate, scale, e0, e1);
    var scale' := OutputScale(c, scale, level);
    StageDecaysBy(c, z, x, rate, scale, rate', level, scale');
  }

  lemma StageDecaysAt(c: Section, z: State, x: Stream, rate: real, scale: real, rate': real, level: real,
                      scale': real, n: nat)
    requires Stable(c) && 0.0 <= rate <= rate' < 1.0 && 0.0 <= scale && DecaysBy(x, rate, scale)
    requires EnergyAlong(c, z, x)(0) <= level && EnergyAlong(c, z, x)(1) <= level
    requires Sustains(Damping(c), Drive(c), scale, level, rate')
    requires Product(Slack(c), scale') == 2.0 * Product(Square(c.b0), scale) + 2.0 * level
    ensures Square(Stage(c, z, x)(n)) <= Product(scale', Power(rate', n / 2))
  {
    hide Damping, Drive, Energy, StateAt, Output, Square, Slack, Product, Power, Sustains, DecaysBy, Stable;
    ReflectionBound(c);
    var s := StateAt(c, z, x, n);
    EnergyDecaysBy(c, z, x, rate, scale, rate', level, n);
    InputsDecay(x, rate, scale, rate', n);
    NamedOutputEnergy(c, s, x(n));
    SquareIsNonNegative(c.b0);
    OutputDecays(Slack(c), Square(c.b0), Square(x(n)), Square(Output(c, s, x(n))), Energy(c, s), scale, level,
                 Power(rate, n / 2), Power(rate', n / 2), scale');
  }

  lemma StageDecaysBy(c: Section, z: State, x: Stream, rate: real, scale: real, rate': real, level: real,
                      scale': real)
    requires Stable(c) && 0.0 <= rate <= rate' < 1.0 && 0.0 <= scale && DecaysBy(x, rate, scale)
    requires EnergyAlong(c, z, x)(0) <= level && EnergyAlong(c, z, x)(1) <= level
    requires Sustains(Damping(c), Drive(c), scale, level, rate')
    requires Product(Slack(c), scale') == 2.0 * Product(Square(c.b0), scale) + 2.0 * level
    ensures DecaysBy(Stage(c, z, x), rate', scale')
  {
    hide EnergyAlong, Stage, Square, Product, Power, Sustains, Slack, Stable, Damping, Drive;
    forall n: nat
      ensures Square(Stage(c, z, x)(n)) <= Product(scale', Power(rate', n / 2))
    {
      StageDecaysAt(c, z, x, rate, scale, rate', level, scale', n);
    }
  }

  lemma SameStreamDecays(x: Stream, y: Stream)
    requires Decays(x) && forall n: nat :: x(n) == y(n)
    ensures Decays(y)
  {
    var rate, scale :| 0.0 <= rate < 1.0 && 0.0 <= scale && DecaysBy(x, rate, scale);
    forall n: nat
      ensures Square(y(n)) <= Product(scale, Power(rate, n / 2))
    {
      assert x(n) == y(n);
    }
    assert DecaysBy(y, rate, scale);
  }

  /** So does a cascade of any number of stable sections, from any states. */
  lemma {:induction false} CascadeDecays(cs: seq<Section>, zs: seq<State>, x: Stream)
    requires |cs| == |zs| && AllStable(cs) && Decays(x)
    ensures Decays(CascadeStage(cs, zs, x))
    decreases |cs|
  {
    hide Decays, Stage;
    if cs == [] {
      EmptyCascade(zs, x);
      SameStreamDecays(x, CascadeStage(cs, zs, x));
    } else {
      var y := Stage(cs[0], zs[0], x);
      StageDecays(cs[0], zs[0], x);
      CascadeDecays(cs[1..], zs[1..], y);
      forall n: nat
        ensures CascadeStage(cs[1..], zs[1..], y)(n) == CascadeStage(cs, zs, x)(n)
      {
        FirstStageApart(cs, zs, x, n);
      }
      SameStreamDecays(CascadeStage(cs[1..], zs[1..], y), CascadeStage(cs, zs, x));
    }
  }

  lemma EmptyCascade(zs: seq<State>, x: Stream)
    requires zs == []
    ensures forall n: nat :: x(n) == CascadeStage([], zs, x)(n)
  {
  }

  // ---------- Two starts ----------

  const SILENT: Stream := (n: nat) => 0.0

  function Difference(x: Stream, y: Stream): Stream {
    (n: nat) => x(n) - y(n)
  }

  lemma SilenceDecays()
    ensures Decays(SILENT)
  {
    forall n: nat
      ensures Square(SILENT(n)) <= Product(0.0, Power(0.0, n / 2))
    {
      assert SILENT(n) == 0.0;
    }
    assert DecaysBy(SILENT, 0.0, 0.0);
  }

  function StateGaps(zs: seq<State>, ws: seq<State>): (r: seq<State>)
    requires |zs| == |ws|
    ensures |r| == |zs|
  {
    MixStates(1.0, zs, -1.0, ws)
  }

  lemma {:induction false} StatesStayApart(cs: seq<Section>, zs: seq<State>, ws: seq<State>, x: Stream, n: nat)
    requires |cs| == |zs| == |ws|
    ensures StatesAt(cs, StateGaps(zs, ws), SILENT, n)
            == StateGaps(StatesAt(cs, zs, x, n), StatesAt(cs, ws, x, n))
    decreases n
  {
    hide CascadeNext, CascadeOutput;
    if n != 0 {
      var k := n - 1;
      StatesStayApart(cs, zs, ws, x, k);
      SampleSuperposes(cs, 1.0, StatesAt(cs, zs, x, k), x(k), -1.0, StatesAt(cs, ws, x, k), x(k));
      assert MixReal(1.0, x(k), -1.0, x(k)) == SILENT(k);
    }
  }

  /** Two starts on one input come out apart by what their difference rings out with on silence. */
  lemma OutputsApartAreRinging(cs: seq<Section>, zs: seq<State>, ws: seq<State>, x: Stream, n: nat)
    requires |cs| == |zs| == |ws|
    ensures Difference(CascadeStage(cs, zs, x), CascadeStage(cs, ws, x))(n)
            == CascadeStage(cs, StateGaps(zs, ws), SILENT)(n)
  {
    hide CascadeNext, CascadeOutput, StatesAt;
    StatesStayApart(cs, zs, ws, x, n);
    SampleSuperposes(cs, 1.0, StatesAt(cs, zs, x, n), x(n), -1.0, StatesAt(cs, ws, x, n), x(n));
    assert MixReal(1.0, x(n), -1.0, x(n)) == SILENT(n);
  }

  /** Whatever a stable cascade is fed, two starts come out apart by a difference that fades geometrically. */
  lemma StartsAreForgotten(cs: seq<Section>, zs: seq<State>, ws: seq<State>, x: Stream)
    requires |cs| == |zs| == |ws| && AllStable(cs)
    ensures Decays(Difference(CascadeStage(cs, zs, x), CascadeStage(cs, ws, x)))
  {
    hide CascadeStage, Decays, AllStable, StateGaps;
    var y := CascadeStage(cs, StateGaps(zs, ws), SILENT);
    var d := Difference(CascadeStage(cs, zs, x), CascadeStage(cs, ws, x));
    SilenceDecays();
    CascadeDecays(cs, StateGaps(zs, ws), SILENT);
    forall n: nat
      ensures y(n) == d(n)
    {
      OutputsApartAreRinging(cs, zs, ws, x, n);
    }
    SameStreamDecays(y, d);
  }
}
