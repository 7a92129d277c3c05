/**
 Stable sections forget the state they were started in.

 A section is stable when its denominator lies in the stability triangle.  Every such
 section has a quadratic energy that shrinks by a fixed factor over two samples, and from
 that any vanishing input comes out vanishing, whatever the starting state.
 */
module Stability {
  import opened RealAlgebra
  import opened Biquads
  import opened Cascades

  predicate Stable(c: Section) {
    && -1.0 < c.a2 < 1.0
    && -(1.0 + c.a2) < c.a1 < 1.0 + c.a2
  }

  /** The first reflection coefficient; a2 is the second. */
  function Reflection(c: Section): real
    requires Stable(c)
  {
    c.a1 / (1.0 + c.a2)
  }

  function Slack(c: Section): real
    requires Stable(c)
  {
    1.0 - Square(Reflection(c))
  }

  function Tilted(c: Section, z: State): real
    requires Stable(c)
  {
    z.z2 - Reflection(c) * c.a2 * z.z1
  }

  function Energy(c: Section, z: State): real
    requires Stable(c)
  {
    Form(Slack(c), Tilted(c, z), z.z1)
  }

  /** What one unforced step takes off the energy, up to the factor 1 - a2^2. */
  function Lost(c: Section, z: State): real
    requires Stable(c)
  {
    Combined(Reflection(c), Tilted(c, z), Slack(c), z.z1)
  }

  function Unforced(c: Section, z: State): State {
    Next(c, z, 0.0)
  }

  lemma ReflectionBound(c: Section)
    requires Stable(c)
    ensures c.a1 == Reflection(c) * (1.0 + c.a2)
    ensures -1.0 < Reflection(c) < 1.0
    ensures 0.0 < Slack(c) <= 1.0
  {
    var r, s := Reflection(c), 1.0 + c.a2;
    assert r * s == c.a1;
    ProperFraction(r, c.a1, s);
    UnitSquare(r);
    hide Square;
  }

  lemma EnergyIsNonNegative(c: Section, z: State)
    requires Stable(c)
    ensures 0.0 <= Slack(c) * Square(z.z1) <= Energy(c, z)
  {
    ReflectionBound(c);
  }

  /** The algebra of one unforced step, in the reflection coefficients. */
  lemma LatticeStep(r: real, a1: real, a2: real, z1: real, z2: real, e: real, z1': real, z2': real)
    requires a1 == r * (1.0 + a2) && e == z2 - r * a2 * z1 && z1' == z2 - a1 * z1 && z2' == -a2 * z1
    ensures z2' - r * a2 * z1' == -a2 * (r * e + (1.0 - r * r) * z1)
    ensures z1' == e - r * z1
  {
    assert a1 * z1 == r * z1 + r * a2 * z1;
  }

  lemma EnergyIsForm(c: Section, z: State)
    requires Stable(c)
    ensures Energy(c, z) == Form(Slack(c), Tilted(c, z), z.z1)
  {
  }

  /** Everything the energy of a section and of its next state are made of. */
  lemma Parts(c: Section, z: State)
    requires Stable(c)
    ensures Slack(c) == 1.0 - Square(Reflection(c))
    ensures Lost(c, z) == Combined(Reflection(c), Tilted(c, z), Slack(c), z.z1)
    ensures Tilted(c, Unforced(c, z)) == -Product(c.a2, Lost(c, z))
    ensures Unforced(c, z).z1 == Tilted(c, z) - Product(Reflection(c), z.z1)
    ensures Energy(c, z) == Form(Slack(c), Tilted(c, z), z.z1)
  {
    var r, u := Reflection(c), Unforced(c, z);
    ReflectionBound(c);
    LatticeStep(r, c.a1, c.a2, z.z1, z.z2, Tilted(c, z), u.z1, u.z2);
  }

  /** The energy drop with its product under a name. */
  lemma NamedDrop(c: Section, z: State)
    requires Stable(c)
    ensures Energy(c, Unforced(c, z)) == Energy(c, z) - Product(1.0 - Square(c.a2), Square(Lost(c, z)))
  {
    hide Energy, Tilted, Lost, Slack, Square, Unforced, Reflection, Form, Product, Combined;
    var u := Unforced(c, z);
    Parts(c, z);
    Parts(c, u);
    LatticeDrop(Reflection(c), Slack(c), c.a2, Tilted(c, z), z.z1, Lost(c, z), Tilted(c, u), u.z1);
  }

  /** The energy of an unforced section drops by exactly (1 - a2^2) times a square. */
  lemma EnergyDrop(c: Section, z: State)
    requires Stable(c)
    ensures Energy(c, Unforced(c, z)) == Energy(c, z) - (1.0 - Square(c.a2)) * Square(Lost(c, z))
  {
    hide Energy, Lost, Square, Unforced;
    NamedDrop(c, z);
  }

  lemma UnforcedNeverGains(c: Section, z: State)
    requires Stable(c)
    ensures Energy(c, Unforced(c, z)) <= Energy(c, z)
  {
    hide Energy, Unforced, Square, Lost;
    NamedDrop(c, z);
    UnitSquare(c.a2);
    SquareIsNonNegative(Lost(c, z));
    ProductIsNonNegative(1.0 - Square(c.a2), Square(Lost(c, z)));
  }

  /** The factor two unforced steps shrink the energy by. */
  function Shrink(c: Section): real
    requires Stable(c)
  {
    1.0 - Product(1.0 - Square(c.a2), Slack(c)) / 2.0
  }

  lemma ShrinkBound(c: Section)
    requires Stable(c)
    ensures 0.5 <= Shrink(c) < 1.0
  {
    ReflectionBound(c);
    UnitSquare(c.a2);
    ShrinkIs(c);
    hide Square, Slack, Shrink, Product;
    HalfOff(1.0 - Square(c.a2), Slack(c), Shrink(c));
  }

  lemma HalfOff(d: real, k: real, s: real)
    requires 0.0 < d <= 1.0 && 0.0 < k <= 1.0 && s == 1.0 - Product(d, k) / 2.0
    ensures 0.5 <= s < 1.0
  {
    ProductOfPositives(d, k, Product(d, k));
    ProductIsNonNegative(1.0 - d, k);
  }

  lemma ShrinkIs(c: Section)
    requires Stable(c)
    ensures Shrink(c) == 1.0 - Product(1.0 - Square(c.a2), Slack(c)) / 2.0
  {
  }

  lemma NamedShrink(c: Section, z: State)
    requires Stable(c)
    ensures Energy(c, Unforced(c, Unforced(c, z))) <= Product(Shrink(c), Energy(c, z))
  {
    hide Energy, Tilted, Lost, Slack, Unforced, Reflection, Square, Shrink, Form, Product, Combined;
    var z' := Unforced(c, z);
    NamedDrop(c, z);
    NamedDrop(c, z');
    Parts(c, z);
    Parts(c, z');
    ReflectionBound(c);
    UnitSquare(c.a2);
    ShrinkIs(c);
    Rotation(Reflection(c), Slack(c), Tilted(c, z), z.z1, Lost(c, z), z'.z1);
    TwoLossesSpan(Reflection(c), Slack(c), c.a2, Lost(c, z), Tilted(c, z'), Lost(c, z'), z'.z1);
    TwoDrops(Energy(c, z), Energy(c, z'), Energy(c, Unforced(c, z')), 1.0 - Square(c.a2), Slack(c),
             Square(Lost(c, z)), Square(Lost(c, z')), Shrink(c));
  }

  /** Two unforced steps shrink the energy of every stable section by a factor below one. */
  lemma TwoStepsShrink(c: Section, z: State)
    requires Stable(c)
    ensures Energy(c, Unforced(c, Unforced(c, z))) <= Shrink(c) * Energy(c, z)
  {
    hide Energy, Unforced, Shrink;
    NamedShrink(c, z);
  }

  // ---------- Driven by an input ----------

  function Plus(z: State, w: State): State {
    State(z.z1 + w.z1, z.z2 + w.z2)
  }

  lemma TiltedAdds(c: Section, z: State, w: State)
    requires Stable(c)
    ensures Plus(z, w).z1 == z.z1 + w.z1
    ensures Tilted(c, Plus(z, w)) == Tilted(c, z) + Tilted(c, w)
  {
    hide Reflection;
  }

  lemma EnergyOfSum(c: Section, z: State, w: State, t: real, q: real)
    requires Stable(c) && 0.0 < t && 0.0 < q && t * q == 1.0
    ensures Energy(c, Plus(z, w)) <= Weighted(t, Energy(c, z), q, Energy(c, w))
  {
    var s := Plus(z, w);
    ReflectionBound(c);
    TiltedAdds(c, z, w);
    hide Energy, Tilted, Slack, Reflection, Square, Plus, Stable, Form, Weighted;
    EnergyIsForm(c, z);
    EnergyIsForm(c, w);
    EnergyIsForm(c, s);
    FormOfSum(Slack(c), Tilted(c, z), Tilted(c, w), Tilted(c, s), z.z1, w.z1, s.z1, t, q);
  }

  /** The energy one unit sample puts into a section at rest. */
  function Kick(c: Section): real
    requires Stable(c)
  {
    Energy(c, Next(c, REST, 1.0))
  }

  lemma KickIs(c: Section)
    requires Stable(c)
    ensures Kick(c) == Energy(c, Next(c, REST, 1.0))
  {
  }

  lemma KickUnfolds(c: Section, x: real)
    requires Stable(c)
    ensures Next(c, REST, x).z1 == Product(x, Next(c, REST, 1.0).z1)
    ensures Tilted(c, Next(c, REST, x)) == Product(x, Tilted(c, Next(c, REST, 1.0)))
  {
    hide Reflection;
  }

  lemma KickScales(c: Section, x: real)
    requires Stable(c)
    ensures Energy(c, Next(c, REST, x)) == Product(Square(x), Kick(c))
  {
    hide Energy, Tilted, Slack, Next, Square, Reflection, Kick, Stable, Form, Product;
    var u, w := Next(c, REST, 1.0), Next(c, REST, x);
    KickIs(c);
    KickUnfolds(c, x);
    EnergyIsForm(c, u);
    EnergyIsForm(c, w);
    FormScales(Slack(c), Tilted(c, u), Tilted(c, w), u.z1, w.z1, x);
  }

  lemma NextSplits(c: Section, z: State, x: real)
    ensures Next(c, z, x) == Plus(Unforced(c, z), Next(c, REST, x))
  {
    hide Next;
    NextCollected(c, z, x);
    NextCollected(c, z, 0.0);
    NextCollected(c, REST, x);
  }

  lemma UnforcedSplits(c: Section, z: State, w: State)
    ensures Unforced(c, Plus(z, w)) == Plus(Unforced(c, z), Unforced(c, w))
  {
    hide Next;
    NextCollected(c, z, 0.0);
    NextCollected(c, w, 0.0);
    NextCollected(c, Plus(z, w), 0.0);
  }

  lemma PlusAssociates(u: State, v: State, w: State)
    ensures Plus(Plus(u, v), w) == Plus(u, Plus(v, w))
  {
  }

  /** A factor still below one, with room left for an input. */
  function Damping(c: Section): real
    requires Stable(c)
  {
    (1.0 + Shrink(c)) / 2.0
  }

  /** The weight given to the free part of the state, and its inverse for the driven part. */
  function Room(c: Section): (t: real)
    requires Stable(c)
    ensures 0.0 < t
  {
    ShrinkBound(c);
    (1.0 - Shrink(c)) / (2.0 * Shrink(c))
  }

  function Drive(c: Section): real
    requires Stable(c)
  {
    2.0 * (1.0 + 1.0 / Room(c)) * Kick(c)
  }

  lemma InverseIsPositive(t: real, q: real)
    requires 0.0 < t && q == 1.0 / t
    ensures 0.0 < q && t * q == 1.0
  {
  }

  lemma ConstantsBound(c: Section)
    requires Stable(c)
    ensures 0.75 <= Damping(c) < 1.0
    ensures (1.0 + Room(c)) * Shrink(c) == Damping(c)
    ensures 0.0 <= Kick(c) && 0.0 <= Drive(c)
  {
    ShrinkBound(c);
    EnergyIsNonNegative(c, Next(c, REST, 1.0));
    hide Shrink, Energy, Next;
    assert Room(c) * (2.0 * Shrink(c)) == 1.0 - Shrink(c);
    InverseIsPositive(Room(c), 1.0 / Room(c));
    ProductIsNonNegative(2.0 * (1.0 + 1.0 / Room(c)), Kick(c));
  }

  lemma InputsTogether(c: Section, x0: real, x1: real)
    requires Stable(c)
    ensures Energy(c, Plus(Unforced(c, Next(c, REST, x0)), Next(c, REST, x1)))
            <= 2.0 * Product(Kick(c), Square(x0) + Square(x1))
  {
    hide Energy, Next, Unforced, Plus, Kick, Square;
    var w0, w1 := Next(c, REST, x0), Next(c, REST, x1);
    EnergyOfSum(c, Unforced(c, w0), w1, 1.0, 1.0);
    UnforcedNeverGains(c, w0);
    KickScales(c, x0);
    KickScales(c, x1);
  }

  lemma TwoStepsSplit(c: Section, z: State, x0: real, x1: real)
    ensures Next(c, Next(c, z, x0), x1)
            == Plus(Unforced(c, Unforced(c, z)), Plus(Unforced(c, Next(c, REST, x0)), Next(c, REST, x1)))
  {
    hide Next, Unforced, Plus;
    var w0, w1 := Next(c, REST, x0), Next(c, REST, x1);
    NextSplits(c, z, x0);
    NextSplits(c, Next(c, z, x0), x1);
    UnforcedSplits(c, Unforced(c, z), w0);
    PlusAssociates(Unforced(c, Unforced(c, z)), Unforced(c, w0), w1);
  }

  lemma DampedSum(total: real, free: real, driven: real, e: real, s: real, kick: real, t: real, q: real,
                  shrink: real, damping: real, drive: real)
    requires 0.0 < t && 0.0 < q && free <= Product(shrink, e) && driven <= 2.0 * Product(kick, s)
    requires damping == Product(1.0 + t, shrink) && drive == 2.0 * Product(1.0 + q, kick)
    requires total <= Weighted(t, free, q, driven)
    ensures total <= Product(damping, e) + Product(drive, s)
  {
    BoundedSum(1.0 + t, free, shrink * e, 1.0 + q, driven, 2.0 * kick * s);
    assert (1.0 + t) * (shrink * e) == damping * e;
    assert (1.0 + q) * (2.0 * kick * s) == drive * s;
  }

  lemma Weights(c: Section) returns (t: real, q: real)
    requires Stable(c)
    ensures 0.0 < t && 0.0 < q && t * q == 1.0
    ensures Damping(c) == Product(1.0 + t, Shrink(c)) && Drive(c) == 2.0 * Product(1.0 + q, Kick(c))
  {
    t, q := Room(c), 1.0 / Room(c);
    assert Drive(c) == 2.0 * (1.0 + q) * Kick(c);
    InverseIsPositive(t, q);
    ConstantsBound(c);
    hide Drive, Kick, Room, Shrink, Damping;
  }

  lemma NamedForcedSteps(c: Section, z: State, x0: real, x1: real)
    requires Stable(c)
    ensures Energy(c, Next(c, Next(c, z, x0), x1))
            <= Product(Damping(c), Energy(c, z)) + Product(Drive(c), Square(x0) + Square(x1))
  {
    hide Energy, Next, Unforced, Plus, Kick, Square, Damping, Drive, Room, Shrink, Stable, Product, Weighted;
    var t, q := Weights(c);
    var free := Unforced(c, Unforced(c, z));
    var driven := Plus(Unforced(c, Next(c, REST, x0)), Next(c, REST, x1));
    TwoStepsSplit(c, z, x0, x1);
    EnergyOfSum(c, free, driven, t, q);
    InputsTogether(c, x0, x1);
    NamedShrink(c, z);
    DampedSum(Energy(c, Plus(free, driven)), Energy(c, free), Energy(c, driven), Energy(c, z),
              Square(x0) + Square(x1), Kick(c), t, q, Shrink(c), Damping(c), Drive(c));
  }

  /** Two forced steps: the energy shrinks, up to what the two samples put in. */
  lemma TwoForcedSteps(c: Section, z: State, x0: real, x1: real)
    requires Stable(c)
    ensures Energy(c, Next(c, Next(c, z, x0), x1))
            <= Damping(c) * Energy(c, z) + Drive(c) * (Square(x0) + Square(x1))
  {
    hide Energy, Next, Square, Damping, Drive;
    NamedForcedSteps(c, z, x0, x1);
  }

  // ---------- Unbounded signals ----------

  type Stream = nat -> real

  ghost predicate BelowFrom(w: Stream, bound: real, from: nat) {
    forall n: nat :: from <= n ==> w(n) < bound
  }

  ghost predicate EventuallyBelow(w: Stream, bound: real) {
    exists n: nat :: BelowFrom(w, bound, n)
  }

  function SquareOf(x: Stream): Stream {
    (n: nat) => Square(x(n))
  }

  /** x tends to zero. */
  ghost predicate Vanishes(x: Stream) {
    forall bound :: 0.0 < bound ==> EventuallyBelow(SquareOf(x), bound)
  }

  lemma VanishesBelow(x: Stream, bound: real)
    requires Vanishes(x) && 0.0 < bound
    ensures EventuallyBelow(SquareOf(x), bound)
  {
  }

  ghost predicate ContractsAt(w: Stream, factor: real, added: real, n: nat) {
    w(n + 2) <= factor * w(n) + added
  }

  /** From `from` on, two steps multiply w by at most `factor` and add at most `added`. */
  ghost predicate Contracts(w: Stream, factor: real, added: real, from: nat) {
    forall n: nat :: from <= n ==> ContractsAt(w, factor, added, n)
  }

  lemma {:induction false} StaysBelow(w: Stream, factor: real, added: real, from: nat, bound: real, n: nat, j: nat)
    requires 0.0 <= factor && factor * bound + added < bound
    requires Contracts(w, factor, added, from) && from <= n && w(n) < bound
    ensures w(n + 2 * j) < bound
    decreases j
  {
    if j != 0 {
      StaysBelow(w, factor, added, from, bound, n, j - 1);
      var m := n + 2 * (j - 1);
      assert ContractsAt(w, factor, added, m) && m + 2 == n + 2 * j;
      ProductIsNonNegative(factor, bound - w(m));
    }
  }

  /** Every two steps w falls by a fixed amount until it is below the bound. */
  lemma {:induction false} Falls(w: Stream, factor: real, added: real, from: nat, bound: real, step: real,
                                 n: nat, j: nat)
    requires 0.0 <= factor <= 1.0 && factor * bound + added + step == bound && 0.0 < step
    requires Contracts(w, factor, added, from) && from <= n
    ensures w(n + 2 * j) < bound || w(n + 2 * j) <= w(n) - (j as real) * step
    decreases j
  {
    if j != 0 {
      var m := n + 2 * (j - 1);
      Falls(w, factor, added, from, bound, step, n, j - 1);
      assert ContractsAt(w, factor, added, m) && m + 2 == n + 2 * j;
      if w(m) < bound {
        ProductIsNonNegative(factor, bound - w(m));
      } else {
        ProductIsNonNegative(1.0 - factor, w(m) - bound);
        assert w(m + 2) <= w(m) - step;
        assert (j as real) * step == ((j - 1) as real) * step + step;
      }
    }
  }

  lemma FallsBelow(w: Stream, factor: real, added: real, from: nat, bound: real, n: nat) returns (j: nat)
    requires 0.0 <= factor <= 1.0 && factor * bound + added < bound
    requires Contracts(w, factor, added, from) && from <= n
    ensures w(n + 2 * j) < bound
  {
    var step := bound - factor * bound - added;
    var needed := (w(n) - bound) / step;
    assert needed * step == w(n) - bound;
    j := if needed < 0.0 then 0 else needed.Floor + 1;
    ProductIsPositive((j as real) - needed, step);
    assert (j as real) * step > needed * step;
    Falls(w, factor, added, from, bound, step, n, j);
  }

  lemma ContractionSettles(w: Stream, factor: real, added: real, from: nat, bound: real)
    requires 0.0 <= factor <= 1.0 && factor * bound + added < bound
    requires Contracts(w, factor, added, from)
    ensures EventuallyBelow(w, bound)
  {
    var even := FallsBelow(w, factor, added, from, bound, from);
    var odd := FallsBelow(w, factor, added, from, bound, from + 1);
    var start := from + 2 * (even + odd) + 1;
    forall n: nat | start <= n
      ensures w(n) < bound
    {
      var base, j := SameParity(from + 2 * even, from + 1 + 2 * odd, n);
      StaysBelow(w, factor, added, from, bound, base, j);
    }
    assert BelowFrom(w, bound, start);
  }

  /** One of two starting points of different parity reaches n in steps of two. */
  lemma SameParity(even: nat, odd: nat, n: nat) returns (base: nat, j: nat)
    requires even % 2 != odd % 2 && even <= n && odd <= n
    ensures base in {even, odd} && n == base + 2 * j
  {
    base := if (n - even) % 2 == 0 then even else odd;
    j := (n - base) / 2;
  }

  // ---------- Sections over unbounded signals ----------

  function StateAt(c: Section, z: State, x: Stream, n: nat): State {
    if n == 0 then z else Next(c, StateAt(c, z, x, n - 1), x(n - 1))
  }

  /** The output stream of one section. */
  function Stage(c: Section, z: State, x: Stream): Stream {
    (n: nat) => Output(c, StateAt(c, z, x, n), x(n))
  }

  function EnergyAlong(c: Section, z: State, x: Stream): Stream
    requires Stable(c)
  {
    (n: nat) => Energy(c, StateAt(c, z, x, n))
  }

  /** The difference between the states of two runs on the same input. */
  function Gap(c: Section, z: State, w: State, x: Stream, n: nat): State {
    MixState(1.0, StateAt(c, z, x, n), -1.0, StateAt(c, w, x, n))
  }

  lemma OutputsApart(c: Section, s: State, t: State, x: real)
    ensures Output(c, s, x) - Output(c, t, x) == MixState(1.0, s, -1.0, t).z1
  {
  }

  lemma GapStep(c: Section, z: State, w: State, x: Stream, n: nat)
    ensures Gap(c, z, w, x, n + 1) == Unforced(c, Gap(c, z, w, x, n))
    ensures Stage(c, z, x)(n) - Stage(c, w, x)(n) == Gap(c, z, w, x, n).z1
  {
    hide Next, Output;
    var s, t := StateAt(c, z, x, n), StateAt(c, w, x, n);
    StepSuperposes(c, 1.0, s, x(n), -1.0, t, x(n));
    OutputsApart(c, s, t, x(n));
    assert MixReal(1.0, x(n), -1.0, x(n)) == 0.0;
  }

  lemma EnergyBoundsOutput(c: Section, gap: State, difference: real)
    requires Stable(c) && difference == gap.z1
    ensures Slack(c) * Square(difference) <= Energy(c, gap)
  {
    EnergyIsNonNegative(c, gap);
  }

  lemma GapEnergyStep(c: Section, z: State, w: State, x: Stream, n: nat)
    requires Stable(c)
    ensures Energy(c, Gap(c, z, w, x, n + 1)) <= Energy(c, Gap(c, z, w, x, n))
    ensures Energy(c, Gap(c, z, w, x, n + 2)) <= Shrink(c) * Energy(c, Gap(c, z, w, x, n))
    ensures Slack(c) * Square(Stage(c, z, x)(n) - Stage(c, w, x)(n)) <= Energy(c, Gap(c, z, w, x, n))
  {
    hide Energy, Gap, Unforced, Shrink, Slack, Stage, Square, Stable;
    var now := Gap(c, z, w, x, n);
    GapStep(c, z, w, x, n);
    GapStep(c, z, w, x, n + 1);
    assert n + 1 + 1 == n + 2;
    TwoStepsShrink(c, now);
    UnforcedNeverGains(c, now);
    EnergyBoundsOutput(c, now, Stage(c, z, x)(n) - Stage(c, w, x)(n));
  }

  /**
   Two runs of a stable section on one unbounded input, from any two states: the energy of
   the difference of their states never grows, so neither does the bound it puts on the
   difference of their outputs, and over two samples it shrinks by a fixed factor.
   */
  lemma {:induction false} DifferenceEnergyNeverGrows(c: Section, z: State, w: State, x: Stream, n: nat)
    requires Stable(c)
    ensures Energy(c, Gap(c, z, w, x, n + 1)) <= Energy(c, Gap(c, z, w, x, n)) <= Energy(c, Gap(c, z, w, x, 0))
    ensures Energy(c, Gap(c, z, w, x, n + 2)) <= Shrink(c) * Energy(c, Gap(c, z, w, x, n))
    ensures Slack(c) * Square(Stage(c, z, x)(n) - Stage(c, w, x)(n)) <= Energy(c, Gap(c, z, w, x, 0))
    decreases n
  {
    hide Energy, Gap, Shrink, Slack, Stage;
    GapEnergyStep(c, z, w, x, n);
    if n != 0 {
      DifferenceEnergyNeverGrows(c, z, w, x, n - 1);
    }
  }

  lemma EnergyContractsAt(c: Section, z: State, x: Stream, bound: real, n: nat)
    requires Stable(c) && Square(x(n)) < bound && Square(x(n + 1)) < bound
    ensures ContractsAt(EnergyAlong(c, z, x), Damping(c), Drive(c) * (2.0 * bound), n)
  {
    hide Energy, Damping, Drive, Next, Square;
    var now := StateAt(c, z, x, n);
    ConstantsBound(c);
    TwoForcedSteps(c, now, x(n), x(n + 1));
    assert StateAt(c, z, x, n + 2) == Next(c, Next(c, now, x(n)), x(n + 1));
    ProductIsNonNegative(Drive(c), 2.0 * bound - (Square(x(n)) + Square(x(n + 1))));
  }

  /** Under inputs below a bound, the energy along a run contracts. */
  lemma EnergyContracts(c: Section, z: State, x: Stream, bound: real, from: nat)
    requires Stable(c) && BelowFrom(SquareOf(x), bound, from)
    ensures Contracts(EnergyAlong(c, z, x), Damping(c), Drive(c) * (2.0 * bound), from)
  {
    hide Damping, Drive, EnergyAlong, ContractsAt;
    var w, factor, added := EnergyAlong(c, z, x), Damping(c), Drive(c) * (2.0 * bound);
    forall n: nat | from <= n
      ensures ContractsAt(w, factor, added, n)
    {
      assert SquareOf(x)(n) < bound && SquareOf(x)(n + 1) < bound;
      EnergyContractsAt(c, z, x, bound, n);
    }
  }

  /** Small enough inputs leave any energy bound above what they can sustain. */
  lemma Tolerance(c: Section, bound: real) returns (t: real)
    requires Stable(c) && 0.0 < bound
    ensures 0.0 < t && Damping(c) * bound + Drive(c) * (2.0 * t) < bound
  {
    ConstantsBound(c);
    t := ToleranceSuffices(Damping(c), Drive(c), bound);
  }

  lemma {:induction false} EnergyVanishes(c: Section, z: State, x: Stream, bound: real)
    requires Stable(c) && Vanishes(x) && 0.0 < bound
    ensures EventuallyBelow(EnergyAlong(c, z, x), bound)
  {
    var t := Tolerance(c, bound);
    assert EventuallyBelow(SquareOf(x), t);
    var from: nat :| BelowFrom(SquareOf(x), t, from);
    EnergyContracts(c, z, x, t, from);
    ConstantsBound(c);
    ContractionSettles(EnergyAlong(c, z, x), Damping(c), Drive(c) * (2.0 * t), from, bound);
  }

  /** The energy and the sample bound the output. */
  lemma OutputEnergy(c: Section, z: State, x: real)
    requires Stable(c)
    ensures Slack(c) * Square(Output(c, z, x)) <= 2.0 * (Square(c.b0) * Square(x)) + 2.0 * Energy(c, z)
  {
    assert Output(c, z, x) == c.b0 * x + z.z1;
    ReflectionBound(c);
    EnergyIsNonNegative(c, z);
    hide Energy, Slack, Square, Output, Stable;
    SquareOfSum(c.b0 * x, z.z1, Output(c, z, x), 1.0, 1.0);
    ScaledSquare(c.b0, x, c.b0 * x);
    SquareIsNonNegative(c.b0);
    SquareIsNonNegative(x);
    SquareBound(Slack(c), Square(c.b0), Square(x), Square(z.z1), Square(Output(c, z, x)), Energy(c, z));
  }

  lemma SquareBound(k: real, b: real, x: real, z: real, y: real, e: real)
    requires 0.0 < k <= 1.0 && 0.0 <= b && 0.0 <= x && k * z <= e && y <= 2.0 * (b * x) + 2.0 * z
    ensures k * y <= 2.0 * (b * x) + 2.0 * e
  {
    ProductIsNonNegative(b, x);
    ProductIsNonNegative(1.0 - k, b * x);
    ProductIsNonNegative(k, 2.0 * (b * x) + 2.0 * z - y);
  }

  lemma OutputSquare(c: Section, z: State, x: real, e: real, t: real)
    requires Stable(c) && Energy(c, z) < e && Square(x) < t
    ensures Slack(c) * Square(Output(c, z, x)) < 2.0 * (Square(c.b0) * t) + 2.0 * e
  {
    hide Energy, Slack, Square, Output;
    OutputEnergy(c, z, x);
    SquareIsNonNegative(c.b0);
    ProductIsNonNegative(Square(c.b0), t - Square(x));
  }

  lemma OutputBelow(c: Section, z: State, x: real, e: real, t: real, bound: real)
    requires Stable(c) && Energy(c, z) < e && Square(x) < t
    requires 4.0 * e == Slack(c) * bound && t * (1.0 + Square(c.b0)) == e
    ensures Square(Output(c, z, x)) < bound
  {
    var k, b := Slack(c), Square(c.b0);
    ReflectionBound(c);
    OutputSquare(c, z, x, e, t);
    SquareIsNonNegative(x);
    assert b * t == e - t;
    CancelFactor(k, Square(Output(c, z, x)), bound);
  }

  /** A stable section turns a vanishing input into a vanishing output, from any state. */
  lemma {:induction false} StageVanishes(c: Section, z: State, x: Stream)
    requires Stable(c) && Vanishes(x)
    ensures Vanishes(Stage(c, z, x))
  {
    var y := Stage(c, z, x);
    forall bound | 0.0 < bound
      ensures EventuallyBelow(SquareOf(y), bound)
    {
      StageFallsBelow(c, z, x, bound);
    }
  }

  lemma StageFallsBelow(c: Section, z: State, x: Stream, bound: real)
    requires Stable(c) && Vanishes(x) && 0.0 < bound
    ensures EventuallyBelow(SquareOf(Stage(c, z, x)), bound)
  {
    hide Energy, Slack, StateAt, Output;
    var y, k, g := Stage(c, z, x), Slack(c), 1.0 + Square(c.b0);
    ReflectionBound(c);
    SquareIsNonNegative(c.b0);
    ProductIsPositive(k, bound);
    var e := k * bound / 4.0;
    var t := e / g;
    assert t * g == e;
    EnergyVanishes(c, z, x, e);
    assert EventuallyBelow(SquareOf(x), t);
    var n0: nat :| BelowFrom(EnergyAlong(c, z, x), e, n0);
    var n1: nat :| BelowFrom(SquareOf(x), t, n1);
    forall n: nat | n0 + n1 <= n
      ensures SquareOf(y)(n) < bound
    {
      assert EnergyAlong(c, z, x)(n) < e && SquareOf(x)(n) < t;
      OutputBelow(c, StateAt(c, z, x, n), x(n), e, t, bound);
    }
    assert BelowFrom(SquareOf(y), bound, n0 + n1);
  }

  // ---------- Cascades over unbounded signals ----------

  function StatesAt(cs: seq<Section>, zs: seq<State>, x: Stream, n: nat): (r: seq<State>)
    requires |cs| == |zs|
    ensures |r| == |cs|
  {
    if n == 0 then zs else CascadeNext(cs, StatesAt(cs, zs, x, n - 1), x(n - 1))
  }

  /** The output stream of a cascade. */
  function CascadeStage(cs: seq<Section>, zs: seq<State>, x: Stream): Stream
    requires |cs| == |zs|
  {
    (n: nat) => CascadeOutput(cs, StatesAt(cs, zs, x, n), x(n))
  }

  lemma StageStep(c: Section, z: State, x: Stream, n: nat)
    ensures StateAt(c, z, x, 0) == z
    ensures StateAt(c, z, x, n + 1) == Next(c, StateAt(c, z, x, n), x(n))
    ensures Stage(c, z, x)(n) == Output(c, StateAt(c, z, x, n), x(n))
  {
    hide Next, Output;
  }

  lemma CascadeStep(cs: seq<Section>, zs: seq<State>, x: Stream, n: nat)
    requires |cs| == |zs|
    ensures StatesAt(cs, zs, x, 0) == zs
    ensures StatesAt(cs, zs, x, n + 1) == CascadeNext(cs, StatesAt(cs, zs, x, n), x(n))
    ensures CascadeStage(cs, zs, x)(n) == CascadeOutput(cs, StatesAt(cs, zs, x, n), x(n))
  {
    hide CascadeNext, CascadeOutput;
  }

  lemma {:induction false} StatesApart(cs: seq<Section>, zs: seq<State>, x: Stream, n: nat)
    requires |cs| == |zs| && cs != []
    ensures StatesAt(cs, zs, x, n)
            == [StateAt(cs[0], zs[0], x, n)] + StatesAt(cs[1..], zs[1..], Stage(cs[0], zs[0], x), n)
    decreases n
  {
    hide CascadeNext, CascadeOutput, Output, Next, StatesAt, StateAt, Stage, CascadeStage;
    var y, m := Stage(cs[0], zs[0], x), if n == 0 then 0 else n - 1;
    StageStep(cs[0], zs[0], x, m);
    CascadeStep(cs, zs, x, m);
    CascadeStep(cs[1..], zs[1..], y, m);
    if n == 0 {
      assert zs == [zs[0]] + zs[1..];
    } else {
      StatesApart(cs, zs, x, m);
      CascadeUnfolds(cs, StateAt(cs[0], zs[0], x, m), StatesAt(cs[1..], zs[1..], y, m), x(m));
    }
  }

  /** A cascade is its first section followed by the cascade of the others. */
  lemma FirstStageApart(cs: seq<Section>, zs: seq<State>, x: Stream, n: nat)
    requires |cs| == |zs| && cs != []
    ensures CascadeStage(cs, zs, x)(n) == CascadeStage(cs[1..], zs[1..], Stage(cs[0], zs[0], x))(n)
  {
    hide CascadeNext, CascadeOutput, Output, Next, StatesAt, StateAt, Stage, CascadeStage;
    var y := Stage(cs[0], zs[0], x);
    StatesApart(cs, zs, x, n);
    StageStep(cs[0], zs[0], x, n);
    CascadeStep(cs, zs, x, n);
    CascadeStep(cs[1..], zs[1..], y, n);
    CascadeUnfolds(cs, StateAt(cs[0], zs[0], x, n), StatesAt(cs[1..], zs[1..], y, n), x(n));
  }

  ghost predicate AllStable(cs: seq<Section>) {
    forall i :: 0 <= i < |cs| ==> Stable(cs[i])
  }

  lemma SameStreamVanishes(x: Stream, y: Stream)
    requires Vanishes(x) && forall n: nat :: x(n) == y(n)
    ensures Vanishes(y)
  {
    forall bound | 0.0 < bound
      ensures EventuallyBelow(SquareOf(y), bound)
    {
      assert EventuallyBelow(SquareOf(x), bound);
      var n: nat :| BelowFrom(SquareOf(x), bound, n);
      forall m: nat | n <= m
        ensures SquareOf(y)(m) < bound
      {
        assert SquareOf(x)(m) < bound;
      }
      assert BelowFrom(SquareOf(y), bound, n);
    }
  }

  lemma {:induction false} CascadeVanishes(cs: seq<Section>, zs: seq<State>, x: Stream)
    requires |cs| == |zs| && AllStable(cs) && Vanishes(x)
    ensures Vanishes(CascadeStage(cs, zs, x))
    decreases |cs|
  {
    if cs == [] {
      SameStreamVanishes(x, CascadeStage(cs, zs, x));
    } else {
      var y := Stage(cs[0], zs[0], x);
      StageVanishes(cs[0], zs[0], x);
      CascadeVanishes(cs[1..], zs[1..], y);
      forall n: nat
        ensures CascadeStage(cs[1..], zs[1..], y)(n) == CascadeStage(cs, zs, x)(n)
      {
        FirstStageApart(cs, zs, x, n);
      }
      SameStreamVanishes(CascadeStage(cs[1..], zs[1..], y), CascadeStage(cs, zs, x));
    }
  }
}
