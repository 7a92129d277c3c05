/**
 Sections in series.  The code runs each sample through every section before it takes
 the next sample, and primes all of them in one sweep.
 */
module Cascades {
  import opened Outcomes
  import opened Sequences
  import opened Biquads

  // ---------- One sample through every section ----------

  function CascadeOutput(cs: seq<Section>, zs: seq<State>, x: real): real
    requires |cs| == |zs|
  {
    if cs == [] then x else CascadeOutput(cs[1..], zs[1..], Output(cs[0], zs[0], x))
  }

  function CascadeNext(cs: seq<Section>, zs: seq<State>, x: real): (zs': seq<State>)
    requires |cs| == |zs|
    ensures |zs'| == |zs|
  {
    if cs == [] then [] else [Next(cs[0], zs[0], x)] + CascadeNext(cs[1..], zs[1..], Output(cs[0], zs[0], x))
  }

  lemma CascadeUnfolds(cs: seq<Section>, z: State, zs: seq<State>, x: real)
    requires |cs| == 1 + |zs|
    ensures CascadeOutput(cs, [z] + zs, x) == CascadeOutput(cs[1..], zs, Output(cs[0], z, x))
    ensures CascadeNext(cs, [z] + zs, x) == [Next(cs[0], z, x)] + CascadeNext(cs[1..], zs, Output(cs[0], z, x))
  {
    hide Output, Next;
    assert ([z] + zs)[1..] == zs;
  }

  function CascadeRun(cs: seq<Section>, zs: seq<State>, xs: seq<real>): (ys: seq<real>)
    requires |cs| == |zs|
    ensures |ys| == |xs|
    decreases |xs|
  {
    if xs == [] then []
    else [CascadeOutput(cs, zs, xs[0])] + CascadeRun(cs, CascadeNext(cs, zs, xs[0]), xs[1..])
  }

  /** Every section primed in one sweep, each from what the one before says it passes on. */
  function Primed(cs: seq<Section>, value: real): (zs: seq<State>)
    ensures |zs| == |cs|
  {
    if cs == [] then [] else [Steady(cs[0], value)] + Primed(cs[1..], Passed(cs[0], value))
  }

  function AtRest(n: nat): (zs: seq<State>)
    ensures |zs| == n && forall i :: 0 <= i < n ==> zs[i] == REST
  {
    seq(n, i => REST)
  }

  // ---------- One section over the whole signal ----------

  /** The reference: filter the whole signal with the first section, then the next. */
  function SectionBySection(cs: seq<Section>, zs: seq<State>, xs: seq<real>): (ys: seq<real>)
    requires |cs| == |zs|
    ensures |ys| == |xs|
    decreases |cs|
  {
    if cs == [] then xs else SectionBySection(cs[1..], zs[1..], Run(cs[0], zs[0], xs))
  }

  lemma {:induction false} FirstSampleOut(cs: seq<Section>, zs: seq<State>, xs: seq<real>)
    requires |cs| == |zs| && xs != []
    ensures SectionBySection(cs, zs, xs)
            == [CascadeOutput(cs, zs, xs[0])] + SectionBySection(cs, CascadeNext(cs, zs, xs[0]), xs[1..])
    decreases |cs|
  {
    if cs == [] {
      assert xs == [xs[0]] + xs[1..];
    } else {
      var ys := Run(cs[0], zs[0], xs);
      FirstSampleOut(cs[1..], zs[1..], ys);
      assert ys[1..] == Run(cs[0], Next(cs[0], zs[0], xs[0]), xs[1..]);
      var zs' := CascadeNext(cs, zs, xs[0]);
      assert zs'[0] == Next(cs[0], zs[0], xs[0]);
      assert zs'[1..] == CascadeNext(cs[1..], zs[1..], ys[0]);
    }
  }

  /** The two loops may be exchanged: sample by sample equals section by section. */
  lemma {:induction false} LoopsInterchange(cs: seq<Section>, zs: seq<State>, xs: seq<real>)
    requires |cs| == |zs|
    ensures CascadeRun(cs, zs, xs) == SectionBySection(cs, zs, xs)
    decreases |xs|
  {
    if xs == [] {
    } else {
      FirstSampleOut(cs, zs, xs);
      LoopsInterchange(cs, CascadeNext(cs, zs, xs[0]), xs[1..]);
    }
  }

  /** The reference for priming: each section from the first sample that really reaches it. */
  function PrimedSectionBySection(cs: seq<Section>, xs: seq<real>): (ys: seq<real>)
    requires xs != []
    ensures |ys| == |xs|
    decreases |cs|
  {
    if cs == [] then xs else PrimedSectionBySection(cs[1..], Run(cs[0], Steady(cs[0], xs[0]), xs))
  }

  ghost predicate NoPoleAtDC(cs: seq<Section>) {
    forall i :: 0 <= i < |cs| ==> Denominator(cs[i]) != 0.0
  }

  /** What a primed section says it passes on is its first output, unless it has a pole at DC. */
  lemma PassedIsFirstOutput(c: Section)
    ensures (forall value: real :: Output(c, Steady(c, value), value) == Passed(c, value))
            <==> Denominator(c) != 0.0 || c.b0 == 0.0
  {
    if Denominator(c) != 0.0 {
      forall value: real
        ensures Output(c, Steady(c, value), value) == Passed(c, value)
      {
        SteadyIsTheFixedPoint(c, value, REST);
      }
    } else {
      assert Output(c, Steady(c, 1.0), 1.0) == c.b0;
    }
  }

  /** One sweep primes every section for the first sample of the signal that reaches it. */
  lemma {:induction false} OneSweepPriming(cs: seq<Section>, xs: seq<real>)
    requires xs != [] && NoPoleAtDC(cs)
    ensures CascadeRun(cs, Primed(cs, xs[0]), xs) == PrimedSectionBySection(cs, xs)
    decreases |cs|
  {
    LoopsInterchange(cs, Primed(cs, xs[0]), xs);
    if cs != [] {
      var ys := Run(cs[0], Steady(cs[0], xs[0]), xs);
      SteadyIsTheFixedPoint(cs[0], xs[0], REST);
      OneSweepPriming(cs[1..], ys);
      LoopsInterchange(cs[1..], Primed(cs[1..], ys[0]), ys);
      assert Primed(cs, xs[0])[1..] == Primed(cs[1..], ys[0]);
    }
  }

  // ---------- Superposition ----------

  function MixReal(p: real, x: real, q: real, u: real): real {
    p * x + q * u
  }

  function MixState(p: real, z: State, q: real, w: State): State {
    State(MixReal(p, z.z1, q, w.z1), MixReal(p, z.z2, q, w.z2))
  }

  function MixStates(p: real, zs: seq<State>, q: real, ws: seq<State>): (r: seq<State>)
    requires |zs| == |ws|
    ensures |r| == |zs| && forall i :: 0 <= i < |zs| ==> r[i] == MixState(p, zs[i], q, ws[i])
  {
    seq(|zs|, i requires 0 <= i < |zs| => MixState(p, zs[i], q, ws[i]))
  }

  function Mix(p: real, xs: seq<real>, q: real, us: seq<real>): (r: seq<real>)
    requires |xs| == |us|
    ensures |r| == |xs| && forall i :: 0 <= i < |xs| ==> r[i] == MixReal(p, xs[i], q, us[i])
  {
    seq(|xs|, i requires 0 <= i < |xs| => MixReal(p, xs[i], q, us[i]))
  }

  lemma StepSuperposes(c: Section, p: real, z: State, x: real, q: real, w: State, u: real)
    ensures Output(c, MixState(p, z, q, w), MixReal(p, x, q, u))
            == MixReal(p, Output(c, z, x), q, Output(c, w, u))
    ensures Next(c, MixState(p, z, q, w), MixReal(p, x, q, u))
            == MixState(p, Next(c, z, x), q, Next(c, w, u))
  {
    OutputSuperposes(c, p, z, x, q, w, u);
    NextSuperposes(c, p, z, x, q, w, u);
  }

  lemma OutputSuperposes(c: Section, p: real, z: State, x: real, q: real, w: State, u: real)
    ensures Output(c, MixState(p, z, q, w), MixReal(p, x, q, u))
            == MixReal(p, Output(c, z, x), q, Output(c, w, u))
  {
  }

  lemma NextSuperposes(c: Section, p: real, z: State, x: real, q: real, w: State, u: real)
    ensures Next(c, MixState(p, z, q, w), MixReal(p, x, q, u))
            == MixState(p, Next(c, z, x), q, Next(c, w, u))
  {
    hide Next, MixReal;
    var m, v := MixState(p, z, q, w), MixReal(p, x, q, u);
    NextCollected(c, z, x);
    NextCollected(c, w, u);
    NextCollected(c, m, v);
    LinearMix(c.b1 - c.a1 * c.b0, c.a1, p, q, x, u, v, z.z1, w.z1, m.z1, z.z2, w.z2, m.z2,
              Next(c, z, x).z1, Next(c, w, u).z1, Next(c, m, v).z1);
    assert MixReal(p, 0.0, q, 0.0) == 0.0 by { NothingMixed(p, q); }
    LinearMix(c.b2 - c.a2 * c.b0, c.a2, p, q, x, u, v, z.z1, w.z1, m.z1, 0.0, 0.0, 0.0,
              Next(c, z, x).z2, Next(c, w, u).z2, Next(c, m, v).z2);
  }

  lemma NothingMixed(p: real, q: real)
    ensures MixReal(p, 0.0, q, 0.0) == 0.0
  {
  }

  /** Mixing commutes with x*k - a*z + y. */
  lemma LinearMix(k: real, a: real, p: real, q: real, x: real, x': real, xm: real, z: real, z': real, zm: real,
                  y: real, y': real, ym: real, r: real, r': real, rm: real)
    requires xm == MixReal(p, x, q, x') && zm == MixReal(p, z, q, z') && ym == MixReal(p, y, q, y')
    requires r == x * k - a * z + y && r' == x' * k - a * z' + y' && rm == xm * k - a * zm + ym
    ensures rm == MixReal(p, r, q, r')
  {
  }

  lemma {:induction false} SampleSuperposes(cs: seq<Section>, p: real, zs: seq<State>, x: real,
                                            q: real, ws: seq<State>, u: real)
    requires |cs| == |zs| == |ws|
    ensures CascadeOutput(cs, MixStates(p, zs, q, ws), MixReal(p, x, q, u))
            == MixReal(p, CascadeOutput(cs, zs, x), q, CascadeOutput(cs, ws, u))
    ensures CascadeNext(cs, MixStates(p, zs, q, ws), MixReal(p, x, q, u))
            == MixStates(p, CascadeNext(cs, zs, x), q, CascadeNext(cs, ws, u))
    decreases |cs|
  {
    if cs != [] {
      StepSuperposes(cs[0], p, zs[0], x, q, ws[0], u);
      SampleSuperposes(cs[1..], p, zs[1..], Output(cs[0], zs[0], x), q, ws[1..], Output(cs[0], ws[0], u));
      assert MixStates(p, zs, q, ws)[1..] == MixStates(p, zs[1..], q, ws[1..]);
    }
  }

  /** The cascade is linear in its states and its signal taken together. */
  lemma {:induction false} Superposition(cs: seq<Section>, p: real, zs: seq<State>, xs: seq<real>,
                                         q: real, ws: seq<State>, us: seq<real>)
    requires |cs| == |zs| == |ws| && |xs| == |us|
    ensures CascadeRun(cs, MixStates(p, zs, q, ws), Mix(p, xs, q, us))
            == Mix(p, CascadeRun(cs, zs, xs), q, CascadeRun(cs, ws, us))
    decreases |xs|
  {
    if xs != [] {
      SampleSuperposes(cs, p, zs, xs[0], q, ws, us[0]);
      Superposition(cs, p, CascadeNext(cs, zs, xs[0]), xs[1..], q, CascadeNext(cs, ws, us[0]), us[1..]);
      assert Mix(p, xs, q, us)[1..] == Mix(p, xs[1..], q, us[1..]);
    }
  }

  lemma {:induction false} PrimingSuperposes(cs: seq<Section>, p: real, x: real, q: real, u: real)
    ensures Primed(cs, MixReal(p, x, q, u)) == MixStates(p, Primed(cs, x), q, Primed(cs, u))
    decreases |cs|
  {
    if cs != [] {
      var c := cs[0];
      assert Steady(c, MixReal(p, x, q, u)) == MixState(p, Steady(c, x), q, Steady(c, u));
      PassedSuperposes(c, p, x, q, u);
      PrimingSuperposes(cs[1..], p, Passed(c, x), q, Passed(c, u));
    }
  }

  lemma PassedSuperposes(c: Section, p: real, x: real, q: real, u: real)
    ensures Passed(c, MixReal(p, x, q, u)) == MixReal(p, Passed(c, x), q, Passed(c, u))
  {
    var d := Denominator(c);
    if d != 0.0 {
      var g := (c.b0 + c.b1 + c.b2) / d;
      assert Passed(c, x) == x * g && Passed(c, u) == u * g;
      assert Passed(c, MixReal(p, x, q, u)) == MixReal(p, x, q, u) * g;
    }
  }

  // ---------- Constants ----------

  function Constant(n: nat, value: real): (xs: seq<real>)
    ensures |xs| == n && forall i :: 0 <= i < n ==> xs[i] == value
  {
    seq(n, i => value)
  }

  /** What is left of a constant after every section. */
  function PassedOn(cs: seq<Section>, value: real): real {
    if cs == [] then value else PassedOn(cs[1..], Passed(cs[0], value))
  }

  predicate ZeroSum(c: Section) {
    c.b0 + c.b1 + c.b2 == 0.0
  }

  ghost predicate HasZeroSum(cs: seq<Section>) {
    exists i :: 0 <= i < |cs| && ZeroSum(cs[i])
  }

  lemma {:induction false} PrimedSample(cs: seq<Section>, value: real)
    requires NoPoleAtDC(cs)
    ensures CascadeOutput(cs, Primed(cs, value), value) == PassedOn(cs, value)
    ensures CascadeNext(cs, Primed(cs, value), value) == Primed(cs, value)
    decreases |cs|
  {
    if cs != [] {
      SteadyIsTheFixedPoint(cs[0], value, Steady(cs[0], value));
      PrimedSample(cs[1..], Passed(cs[0], value));
      assert Primed(cs, value)[1..] == Primed(cs[1..], Passed(cs[0], value));
    }
  }

  /** A cascade primed for a constant passes it on, scaled, from sample 0. */
  lemma {:induction false} PrimedConstant(cs: seq<Section>, value: real, n: nat)
    requires NoPoleAtDC(cs)
    ensures CascadeRun(cs, Primed(cs, value), Constant(n, value)) == Constant(n, PassedOn(cs, value))
    decreases n
  {
    if n != 0 {
      PrimedSample(cs, value);
      PrimedConstant(cs, value, n - 1);
      assert Constant(n, value)[1..] == Constant(n - 1, value);
    }
  }

  lemma {:induction false} ZeroPassesZero(cs: seq<Section>)
    ensures PassedOn(cs, 0.0) == 0.0
    decreases |cs|
  {
    if cs != [] {
      assert Passed(cs[0], 0.0) == 0.0;
      ZeroPassesZero(cs[1..]);
    }
  }

  /** One numerator that sums to zero is enough to stop every constant. */
  lemma {:induction false} ZeroSumStopsConstants(cs: seq<Section>, value: real)
    requires HasZeroSum(cs)
    ensures PassedOn(cs, value) == 0.0
    decreases |cs|
  {
    var i :| 0 <= i < |cs| && ZeroSum(cs[i]);
    if i == 0 {
      assert Passed(cs[0], value) == 0.0;
      ZeroPassesZero(cs[1..]);
    } else {
      assert ZeroSum(cs[1..][i - 1]);
      ZeroSumStopsConstants(cs[1..], Passed(cs[0], value));
    }
  }

  function Shifted(xs: seq<real>, offset: real): (r: seq<real>)
    ensures |r| == |xs| && forall i :: 0 <= i < |xs| ==> r[i] == xs[i] - offset
  {
    seq(|xs|, i requires 0 <= i < |xs| => xs[i] - offset)
  }

  /** Taking a constant off a signal changes nothing a primed, constant-stopping cascade says. */
  lemma OffsetsDoNotMatter(cs: seq<Section>, xs: seq<real>, offset: real)
    requires xs != [] && NoPoleAtDC(cs) && HasZeroSum(cs)
    ensures CascadeRun(cs, Primed(cs, Shifted(xs, offset)[0]), Shifted(xs, offset))
            == CascadeRun(cs, Primed(cs, xs[0]), xs)
  {
    var n := |xs|;
    PrimingSuperposes(cs, 1.0, xs[0], -1.0, offset);
    Superposition(cs, 1.0, Primed(cs, xs[0]), xs, -1.0, Primed(cs, offset), Constant(n, offset));
    PrimedConstant(cs, offset, n);
    ZeroSumStopsConstants(cs, offset);
    assert Mix(1.0, xs, -1.0, Constant(n, offset)) == Shifted(xs, offset);
    var ys := CascadeRun(cs, Primed(cs, xs[0]), xs);
    assert Mix(1.0, ys, -1.0, Constant(n, 0.0)) == ys;
  }

  // ---------- The cascade itself ----------

  /** The tables give every section a denominator that can be normalised. */
  ghost predicate Normalisable(as_: seq<Taps>) {
    forall i :: 0 <= i < |as_| ==> as_[i].c0 != 0.0
  }

  function NormalisedAll(bs: seq<Taps>, as_: seq<Taps>): (cs: seq<Section>)
    requires |bs| == |as_| && Normalisable(as_)
    ensures |cs| == |bs| && forall i :: 0 <= i < |bs| ==> cs[i] == Normalised(bs[i], as_[i])
  {
    seq(|bs|, i requires 0 <= i < |bs| => Normalised(bs[i], as_[i]))
  }

  lemma PrimedNothing(value: real)
    ensures Primed([], value) == []
  {
  }

  lemma PrimedUnfolds(cs: seq<Section>, done: seq<State>, value: real, i: nat)
    requires i < |cs|
    ensures done + [Steady(cs[i], value)] + Primed(cs[i + 1..], Passed(cs[i], value)) == done + Primed(cs[i..], value)
  {
    hide Steady, Passed;
    assert cs[i..][1..] == cs[i + 1..];
  }

  lemma NoSections(x: real)
    ensures CascadeOutput([], [], x) == x && CascadeNext([], [], x) == []
  {
  }

  lemma SampleUnfolds(cs: seq<Section>, zs: seq<State>, done: seq<State>, x: real, i: nat)
    requires i < |cs| == |zs|
    ensures var y := Output(cs[i], zs[i], x);
            && CascadeOutput(cs[i..], zs[i..], x) == CascadeOutput(cs[i + 1..], zs[i + 1..], y)
            && done + CascadeNext(cs[i..], zs[i..], x)
               == done + [Next(cs[i], zs[i], x)] + CascadeNext(cs[i + 1..], zs[i + 1..], y)
  {
    hide Output, Next;
    assert cs[i..][1..] == cs[i + 1..] && zs[i..][1..] == zs[i + 1..];
  }

  lemma RunUnfolds(cs: seq<Section>, zs: seq<State>, done: seq<real>, xs: seq<real>, i: nat)
    requires |cs| == |zs| && i < |xs|
    ensures done + [CascadeOutput(cs, zs, xs[i])] + CascadeRun(cs, CascadeNext(cs, zs, xs[i]), xs[i + 1..])
            == done + CascadeRun(cs, zs, xs[i..])
  {
    assert xs[i..][1..] == xs[i + 1..];
  }

  class SecondOrderSections {
    var sections: seq<TransposedDirectFormII>

    ghost predicate Valid()
      reads this
    {
      Distinct(sections)
    }

    ghost function Coefficients(): (cs: seq<Section>)
      reads this
      ensures |cs| == |sections| && forall i :: 0 <= i < |cs| ==> cs[i] == sections[i].c
    {
      seq(|sections|, i requires 0 <= i < |sections| reads this => sections[i].c)
    }

    ghost function States(): (zs: seq<State>)
      reads this, sections
      ensures |zs| == |sections| && forall i :: 0 <= i < |zs| ==> zs[i] == sections[i].Value()
    {
      seq(|sections|, i requires 0 <= i < |sections| reads this, sections => sections[i].Value())
    }

    constructor (sections: seq<TransposedDirectFormII>)
      ensures this.sections == sections
    {
      this.sections := sections;
    }

    /** Builds the cascade at rest, refusing mismatched, missing or unusable coefficients. */
    static method Create(bs: seq<Taps>, as_: seq<Taps>) returns (r: Result<SecondOrderSections>)
      ensures r.Throws? <==> |bs| != |as_| || bs == [] || !Normalisable(as_)
      ensures r.Throws? ==> r.exception == InvalidArgument
      ensures r.Ok? ==>
                && fresh(r.value) && fresh(r.value.sections)
                && r.value.Valid()
                && r.value.Coefficients() == NormalisedAll(bs, as_)
                && r.value.States() == AtRest(|bs|)
    {
      if |bs| != |as_| {
        return Throws(InvalidArgument);
      }
      if bs == [] {
        return Throws(InvalidArgument);
      }
      var sections: seq<TransposedDirectFormII> := [];
      for i := 0 to |bs|
        invariant |sections| == i
        invariant fresh(sections) && Distinct(sections)
        invariant forall k :: 0 <= k < i ==> as_[k].c0 != 0.0
        invariant forall k :: 0 <= k < i ==>
                    sections[k].c == Normalised(bs[k], as_[k]) && sections[k].Value() == REST
      {
        var section := TransposedDirectFormII.Create(bs[i], as_[i]);
        if section.Throws? {
          return Throws(section.exception);
        }
        sections := sections + [section.value];
      }
      var sos := new SecondOrderSections(sections);
      return Ok(sos);
    }

    /** Runs one sample through every section in turn. */
    method FilterSample(x: real) returns (v: real)
      requires Valid()
      modifies sections
      ensures Coefficients() == old(Coefficients())
      ensures v == CascadeOutput(Coefficients(), old(States()), x)
      ensures States() == CascadeNext(Coefficients(), old(States()), x)
    {
      hide Output, Next, CascadeOutput, CascadeNext;
      ghost var cs, zs := Coefficients(), States();
      v := x;
      for i := 0 to |sections|
        invariant forall k :: i <= k < |sections| ==> sections[k].Value() == zs[k]
        invariant CascadeOutput(cs[i..], zs[i..], v) == CascadeOutput(cs, zs, x)
        invariant States()[..i] + CascadeNext(cs[i..], zs[i..], v) == CascadeNext(cs, zs, x)
      {
        ghost var done, before := States()[..i], v;
        v := sections[i].Apply(v);
        SampleUnfolds(cs, zs, done, before, i);
        assert States()[..i + 1] == done + [Next(cs[i], zs[i], before)];
      }
      NoSections(v);
      assert cs[|sections|..] == [] && zs[|sections|..] == [] && States()[..|sections|] == States();
    }

    /** Primes every section as though a constant had been arriving for ever. */
    method SetSteadyState(firstSample: real)
      requires Valid()
      modifies sections
      ensures States() == Primed(Coefficients(), firstSample)
    {
      hide Steady, Passed, Primed;
      ghost var cs := Coefficients();
      var value := firstSample;
      for i := 0 to |sections|
        invariant States()[..i] + Primed(cs[i..], value) == Primed(cs, firstSample)
      {
        ghost var done, before := States()[..i], value;
        value := sections[i].SetSteadyStateFor(value);
        PrimedUnfolds(cs, done, before, i);
        assert States()[..i + 1] == done + [Steady(cs[i], before)];
      }
      assert cs[|sections|..] == [] && Primed([], value) == [] by { PrimedNothing(value); }
      assert States()[..|sections|] == States();
    }

    /** Filters a signal sample by sample from the present state. */
    method FilterEach(x: seq<real>) returns (ys: seq<real>)
      requires Valid()
      modifies sections
      ensures ys == CascadeRun(Coefficients(), old(States()), x)
    {
      hide CascadeOutput, CascadeNext;
      ghost var cs, zs := Coefficients(), States();
      var y := new real[|x|];
      for i := 0 to |x|
        invariant Coefficients() == cs
        invariant y[..i] + CascadeRun(cs, States(), x[i..]) == CascadeRun(cs, zs, x)
      {
        ghost var done, before := y[..i], States();
        var v := FilterSample(x[i]);
        y[i] := v;
        assert y[..i + 1] == done + [v];
        RunUnfolds(cs, before, done, x, i);
      }
      assert y[..|x|] == y[..];
      assert x[|x|..] == [];
      return y[..];
    }

    method ResetInitialConditions()
      requires Valid()
      modifies sections
      ensures States() == AtRest(|sections|)
    {
      for i := 0 to |sections|
        invariant forall k :: 0 <= k < i ==> sections[k].Value() == REST
      {
        sections[i].ResetInitialConditions();
      }
    }

    /** Filters a signal, primed by its first sample if asked, and leaves the cascade at rest. */
    method Filter(x: seq<real>, steadyState: bool) returns (ys: seq<real>)
      requires Valid()
      modifies sections
      ensures ys == CascadeRun(Coefficients(),
                               if steadyState && x != [] then Primed(Coefficients(), x[0]) else old(States()), x)
      ensures States() == AtRest(|sections|)
    {
      if steadyState && x != [] {
        SetSteadyState(x[0]);
      }
      ys := FilterEach(x);
      ResetInitialConditions();
    }
  }
}
