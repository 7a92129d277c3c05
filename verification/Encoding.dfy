/** Writing samples out quantized and differenced, and the one decoder that reads them back. */
module SampleEncoding {
  import opened RealAlgebra
  import opened Rounding

  type Int32 = n: int | -0x8000_0000 <= n < 0x8000_0000

  datatype Options = Options(enableDelta: bool, enableQuantization: bool, levels: Int32)

  /** A number of the reply: an integer or a double. */
  datatype Entry = Whole(n: int) | Fraction(x: real)

  datatype Reply = Reply(data: seq<Entry>, gain: real, deltaEncoded: bool)

  // ---------- What is written ----------

  function MaximumAbsolute(xs: seq<real>): real
    decreases |xs|
  {
    if xs == [] then 0.0 else
    var before, last := MaximumAbsolute(xs[..|xs| - 1]), Abs(xs[|xs| - 1]);
    if before < last then last else before
  }

  /** The largest absolute sample bounds them all and is one of them. */
  lemma {:induction false} MaximumIsAttained(xs: seq<real>)
    ensures 0.0 <= MaximumAbsolute(xs)
    ensures forall i :: 0 <= i < |xs| ==> Abs(xs[i]) <= MaximumAbsolute(xs)
    ensures MaximumAbsolute(xs) == 0.0 || exists i :: 0 <= i < |xs| && Abs(xs[i]) == MaximumAbsolute(xs)
    decreases |xs|
  {
    if xs != [] {
      var n := |xs| - 1;
      MaximumIsAttained(xs[..n]);
      assert forall i :: 0 <= i < n ==> xs[..n][i] == xs[i];
    }
  }

  predicate Quantizes(xs: seq<real>, options: Options) {
    options.enableQuantization && 0 < options.levels && 0.0 < MaximumAbsolute(xs)
  }

  lemma PositiveQuotient(n: real, d: real)
    requires 0.0 < n && 0.0 < d
    ensures 0.0 < n / d && (n / d) * d == n
  {
    var q := n / d;
    assert q * d == n;
    if q <= 0.0 {
      ProductIsNonNegative(-q, d);
    }
  }

  /** The gain the data asks for, or 1. */
  function Gain(xs: seq<real>, options: Options): (g: real)
    ensures 0.0 < g
  {
    if Quantizes(xs, options) then
      PositiveQuotient(options.levels as real, MaximumAbsolute(xs));
      options.levels as real / MaximumAbsolute(xs)
    else 1.0
  }

  function Level(x: real, gain: real): real {
    Round(x * gain) as real
  }

  function Scaled(xs: seq<real>, gain: real): (vs: seq<real>)
    ensures |vs| == |xs| && forall i :: 0 <= i < |xs| ==> vs[i] == Level(xs[i], gain)
  {
    seq(|xs|, i requires 0 <= i < |xs| => Level(xs[i], gain))
  }

  /** The numbers that go out, before any differencing. */
  function Levels(xs: seq<real>, options: Options): (vs: seq<real>)
    ensures |vs| == |xs|
  {
    if Quantizes(xs, options) then Scaled(xs, Gain(xs, options)) else xs
  }

  const LARGEST_WHOLE: real := 9000000000000000.0

  predicate IsWhole(x: real) {
    x == x.Floor as real && Abs(x) <= LARGEST_WHOLE
  }

  predicate AllWhole(vs: seq<real>) {
    forall i :: 0 <= i < |vs| ==> IsWhole(vs[i])
  }

  /** The conversion to a 64-bit integer drops the fraction. */
  function Truncate(x: real): int {
    if x < 0.0 then -((-x).Floor) else x.Floor
  }

  /** The number before this one, or zero. */
  function Previous(vs: seq<real>, n: nat): real
    requires n <= |vs|
  {
    if n == 0 then 0.0 else vs[n - 1]
  }

  function Differences(vs: seq<real>): (es: seq<Entry>)
    ensures |es| == |vs|
  {
    seq(|vs|, i requires 0 <= i < |vs| => Whole(Truncate(vs[i] - Previous(vs, i))))
  }

  function Integers(vs: seq<real>): (es: seq<Entry>)
    ensures |es| == |vs|
  {
    seq(|vs|, i requires 0 <= i < |vs| => Whole(Truncate(vs[i])))
  }

  function Fractions(vs: seq<real>): (es: seq<Entry>)
    ensures |es| == |vs|
  {
    seq(|vs|, i requires 0 <= i < |vs| => Fraction(vs[i]))
  }

  function Encoded(xs: seq<real>, options: Options): Reply {
    var vs := Levels(xs, options);
    var deltaEncoded := options.enableDelta && AllWhole(vs);
    Reply(if deltaEncoded then Differences(vs) else if AllWhole(vs) then Integers(vs) else Fractions(vs),
          Gain(xs, options), deltaEncoded)
  }

  // ---------- The decoder ----------

  function Number(e: Entry): real {
    match e
    case Whole(n) => n as real
    case Fraction(x) => x
  }

  /** The running value at each entry: a running sum if differenced, else the entry itself. */
  function Running(es: seq<Entry>, deltaEncoded: bool): (rs: seq<real>)
    ensures |rs| == |es|
    decreases |es|
  {
    if es == [] then [] else
    var n := |es| - 1;
    var before := Running(es[..n], deltaEncoded);
    before + [if deltaEncoded && n > 0 then before[n - 1] + Number(es[n]) else Number(es[n])]
  }

  function Divided(vs: seq<real>, gain: real): (xs: seq<real>)
    requires gain != 0.0
    ensures |xs| == |vs| && forall i :: 0 <= i < |vs| ==> xs[i] == vs[i] / gain
  {
    seq(|vs|, i requires 0 <= i < |vs| => vs[i] / gain)
  }

  function Decoded(reply: Reply): (xs: seq<real>)
    requires reply.gain != 0.0
    ensures |xs| == |reply.data|
  {
    Divided(Running(reply.data, reply.deltaEncoded), reply.gain)
  }

  // ---------- Reading back what was written ----------

  lemma QuantizedFacts(xs: seq<real>, options: Options)
    requires Quantizes(xs, options)
    ensures 0 < options.levels && 0.0 < MaximumAbsolute(xs)
    ensures Gain(xs, options) * MaximumAbsolute(xs) == options.levels as real
    ensures Levels(xs, options) == Scaled(xs, Gain(xs, options))
  {
    hide MaximumAbsolute, Scaled;
    PositiveQuotient(options.levels as real, MaximumAbsolute(xs));
  }

  lemma TruncateWhole(n: int)
    ensures Truncate(n as real) == n
  {
    if n < 0 {
      assert -(n as real) == (-n) as real;
    }
  }

  lemma WholeDifference(x: real, y: real)
    requires IsWhole(x) && IsWhole(y)
    ensures Truncate(x - y) as real == x - y && Abs(x - y) <= 2.0 * LARGEST_WHOLE
  {
    var m, n := x.Floor, y.Floor;
    assert x == m as real && y == n as real;
    assert x - y == (m - n) as real;
    TruncateWhole(m - n);
    hide Truncate;
  }

  lemma DifferencesUnfold(vs: seq<real>)
    requires vs != []
    ensures var n := |vs| - 1;
            Differences(vs) == Differences(vs[..n]) + [Whole(Truncate(vs[n] - Previous(vs, n)))]
  {
    hide Truncate;
  }

  lemma {:induction false} RunningUnfolds(es: seq<Entry>, e: Entry)
    ensures Running(es + [e], true)
            == Running(es, true) + [if es == [] then Number(e) else Running(es, true)[|es| - 1] + Number(e)]
  {
    hide Number;
    var whole := es + [e];
    assert whole[..|es|] == es && whole[|es|] == e;
  }

  lemma {:induction false} RunningSums(vs: seq<real>)
    requires AllWhole(vs)
    ensures Running(Differences(vs), true) == vs
    decreases |vs|
  {
    hide IsWhole, Truncate, Differences, Running;
    if vs == [] {
      NothingRuns();
    } else {
      var n := |vs| - 1;
      var y := Previous(vs, n);
      RunningSums(vs[..n]);
      DifferencesUnfold(vs);
      RunningUnfolds(Differences(vs[..n]), Whole(Truncate(vs[n] - y)));
      ZeroIsWhole();
      WholeDifference(vs[n], y);
      assert vs == vs[..n] + [vs[n]];
    }
  }

  lemma NothingRuns()
    ensures Running(Differences([]), true) == []
  {
  }

  lemma ZeroIsWhole()
    ensures IsWhole(0.0)
  {
  }

  lemma {:induction false} PlainEntries(es: seq<Entry>)
    ensures forall i :: 0 <= i < |es| ==> Running(es, false)[i] == Number(es[i])
    decreases |es|
  {
    if es != [] {
      PlainEntries(es[..|es| - 1]);
    }
  }

  /** Whatever was asked for, the running values are the numbers that were to go out. */
  lemma RunningIsLevels(xs: seq<real>, options: Options)
    ensures var reply := Encoded(xs, options);
            Running(reply.data, reply.deltaEncoded) == Levels(xs, options)
  {
    var reply, vs := Encoded(xs, options), Levels(xs, options);
    if reply.deltaEncoded {
      RunningSums(vs);
    } else {
      PlainEntries(reply.data);
      if AllWhole(vs) {
        forall i | 0 <= i < |vs|
          ensures Number(reply.data[i]) == vs[i]
        {
          assert IsWhole(vs[i]);
          WholeDifference(vs[i], 0.0);
        }
      }
      assert Running(reply.data, false) == vs;
    }
  }

  // ---------- The reply in plain terms ----------

  /** Samples are quantized when that was asked for, with levels to use, and one of them is not zero. */
  lemma QuantizesExactly(xs: seq<real>, options: Options)
    ensures Quantizes(xs, options) <==>
              options.enableQuantization && 0 < options.levels && exists i :: 0 <= i < |xs| && xs[i] != 0.0
  {
    hide MaximumAbsolute;
    MaximumIsAttained(xs);
  }

  /** A whole number that a double carries exactly. */
  predicate Exact(x: real) {
    x == x.Floor as real && -9000000000000000.0 <= x <= 9000000000000000.0
  }

  lemma WholeIsExact(x: real)
    ensures IsWhole(x) <==> Exact(x)
  {
  }

  predicate AllExact(vs: seq<real>) {
    forall i :: 0 <= i < |vs| ==> Exact(vs[i])
  }

  lemma AllWholeIsExact(vs: seq<real>)
    ensures AllWhole(vs) <==> AllExact(vs)
  {
    hide IsWhole, Exact;
    forall i | 0 <= i < |vs|
      ensures IsWhole(vs[i]) <==> Exact(vs[i])
    {
      WholeIsExact(vs[i]);
    }
  }

  /**
   The entries for the numbers vs: differences from the number before when they were asked for
   and every number is exact, integers when only the latter holds, and else the numbers themselves.
   */
  predicate Writes(vs: seq<real>, enableDelta: bool, reply: Reply) {
    && |reply.data| == |vs|
    && (reply.deltaEncoded <==> enableDelta && AllExact(vs))
    && (!AllExact(vs) ==> forall i :: 0 <= i < |vs| ==> reply.data[i] == Fraction(vs[i]))
    && (AllExact(vs) ==> forall i :: 0 <= i < |vs| ==>
          && reply.data[i].Whole?
          && reply.data[i].n as real == Step(vs, enableDelta, i))
  }

  /** What entry i should say: the number itself, or how far it is from the one before. */
  function Step(vs: seq<real>, enableDelta: bool, i: nat): real
    requires i < |vs|
  {
    if enableDelta && i > 0 then vs[i] - vs[i - 1] else vs[i]
  }

  lemma ExactEntries(vs: seq<real>, i: nat)
    requires AllWhole(vs) && i < |vs|
    ensures Number(Integers(vs)[i]) == vs[i] && Number(Differences(vs)[i]) == vs[i] - Previous(vs, i)
  {
    hide IsWhole, Truncate;
    ZeroIsWhole();
    assert IsWhole(vs[i]) && IsWhole(Previous(vs, i));
    WholeDifference(vs[i], Previous(vs, i));
    WholeDifference(vs[i], 0.0);
  }

  lemma EncodedWrites(xs: seq<real>, options: Options)
    ensures Writes(Levels(xs, options), options.enableDelta, Encoded(xs, options))
  {
    var vs, reply := Levels(xs, options), Encoded(xs, options);
    AllWholeIsExact(vs);
    hide Levels, AllExact, Gain, Truncate, AllWhole;
    if AllWhole(vs) {
      forall i | 0 <= i < |vs|
        ensures reply.data[i].Whole?
        ensures reply.data[i].n as real == Step(vs, options.enableDelta, i)
      {
        ExactEntries(vs, i);
      }
    } else {
      assert reply.data == Fractions(vs);
    }
  }

  /** With nothing to quantize the samples go out as they are. */
  lemma UnquantizedReply(xs: seq<real>, options: Options)
    requires !(options.enableQuantization && 0 < options.levels) || forall i :: 0 <= i < |xs| ==> xs[i] == 0.0
    ensures Encoded(xs, options).gain == 1.0 && Writes(xs, options.enableDelta, Encoded(xs, options))
  {
    QuantizesExactly(xs, options);
    EncodedWrites(xs, options);
    hide Writes, Quantizes;
  }

  /** v is x times the gain, rounded to a whole number with halves away from zero. */
  predicate RoundsTo(x: real, gain: real, v: real) {
    && v == v.Floor as real
    && (0.0 <= x * gain ==> v - 0.5 <= x * gain < v + 0.5)
    && (x * gain <= 0.0 ==> v - 0.5 < x * gain <= v + 0.5)
  }

  /** Otherwise they are scaled until the largest is at the last level, rounded and never declined differencing. */
  lemma QuantizedReply(xs: seq<real>, options: Options)
    requires options.enableQuantization && 0 < options.levels && exists i :: 0 <= i < |xs| && xs[i] != 0.0
    ensures var gain := Encoded(xs, options).gain;
            && (forall i :: 0 <= i < |xs| ==> Abs(xs[i]) * gain <= options.levels as real)
            && (exists i :: 0 <= i < |xs| && Abs(xs[i]) * gain == options.levels as real)
    ensures var vs := Levels(xs, options);
            && |vs| == |xs| && Writes(vs, options.enableDelta, Encoded(xs, options))
            && Encoded(xs, options).deltaEncoded == options.enableDelta
            && forall i :: 0 <= i < |xs| ==> RoundsTo(xs[i], Encoded(xs, options).gain, vs[i])
  {
    hide Writes, Quantizes, Encoded, Gain, MaximumAbsolute, Levels, FillsTheScale, RoundsTo, Abs, Scaled, Level;
    QuantizesExactly(xs, options);
    EncodedWrites(xs, options);
    QuantizedFillsTheScale(xs, options);
    QuantizedFacts(xs, options);
    DecodedIsDivided(xs, options);
    GainReaches(xs, Gain(xs, options), options.levels as real);
    forall i | 0 <= i < |xs|
      ensures RoundsTo(xs[i], Gain(xs, options), Levels(xs, options)[i])
    {
      LevelRounds(xs[i], Gain(xs, options));
      assert Levels(xs, options)[i] == Level(xs[i], Gain(xs, options));
    }
  }

  lemma GainReaches(xs: seq<real>, gain: real, n: real)
    requires 0.0 < gain && 0.0 < MaximumAbsolute(xs) && gain * MaximumAbsolute(xs) == n
    ensures forall i :: 0 <= i < |xs| ==> Abs(xs[i]) * gain <= n
    ensures exists i :: 0 <= i < |xs| && Abs(xs[i]) * gain == n
  {
    hide MaximumAbsolute, Abs;
    MaximumIsAttained(xs);
    forall i | 0 <= i < |xs|
      ensures Abs(xs[i]) * gain <= n
    {
      ProductIsNonNegative(MaximumAbsolute(xs) - Abs(xs[i]), gain);
    }
    var k :| 0 <= k < |xs| && Abs(xs[k]) == MaximumAbsolute(xs);
    SameProduct(gain, Abs(xs[k]), MaximumAbsolute(xs));
  }

  lemma LevelRounds(x: real, gain: real)
    ensures RoundsTo(x, gain, Level(x, gain))
  {
    RoundExactly(x * gain, Round(x * gain));
    hide Round;
  }

  lemma QuantizationError(x: real, gain: real, most: real, levels: real)
    requires 0.0 < gain && 0.0 < most && 0.0 < levels && gain * most == levels
    ensures Abs(Level(x, gain) / gain - x) <= most / (2.0 * levels)
  {
    RoundIsNearest(x * gain);
    var q, r := Level(x, gain), Level(x, gain) / gain;
    assert r * gain == q;
    var bound := most / (2.0 * levels);
    assert bound * (2.0 * levels) == most;
    HalfStep(gain, most, levels, bound);
    var d := r - x;
    assert d * gain == q - x * gain;
    if bound < d {
      CancelFactor(gain, d, bound);
    }
    if bound < -d {
      CancelFactor(gain, -d, bound);
    }
  }

  lemma HalfStep(gain: real, most: real, levels: real, bound: real)
    requires 0.0 < gain && 0.0 < most && 0.0 < levels && gain * most == levels && bound * (2.0 * levels) == most
    ensures gain * bound == 0.5
  {
    assert (gain * bound) * (2.0 * levels) == gain * most == levels;
    Cancelled(2.0 * levels, gain * bound, 0.5);
  }

  lemma DecodedIsDivided(xs: seq<real>, options: Options)
    ensures Encoded(xs, options).gain == Gain(xs, options)
    ensures Decoded(Encoded(xs, options)) == Divided(Levels(xs, options), Gain(xs, options))
    ensures !Quantizes(xs, options) ==> Gain(xs, options) == 1.0
  {
    RunningIsLevels(xs, options);
    hide Running, MaximumAbsolute, Levels, Quantizes;
  }

  /**
   The one decoder recovers every sample, whatever was asked for: exactly when nothing was
   quantized, and to within half a level of the largest sample when it was.
   */
  lemma DecoderRecovers(xs: seq<real>, options: Options)
    ensures Encoded(xs, options).gain > 0.0 && |Decoded(Encoded(xs, options))| == |xs|
    ensures !Quantizes(xs, options) ==> Decoded(Encoded(xs, options)) == xs
    ensures Quantizes(xs, options) ==>
              forall i :: 0 <= i < |xs| ==>
                Abs(Decoded(Encoded(xs, options))[i] - xs[i])
                <= MaximumAbsolute(xs) / (2.0 * options.levels as real)
  {
    DecodedIsDivided(xs, options);
    hide Decoded, Encoded, MaximumAbsolute, Level, Gain, Abs;
    if Quantizes(xs, options) {
      QuantizedFacts(xs, options);
      var gain, most, n := Gain(xs, options), MaximumAbsolute(xs), options.levels as real;
      forall i | 0 <= i < |xs|
        ensures Abs(Decoded(Encoded(xs, options))[i] - xs[i]) <= most / (2.0 * n)
      {
        QuantizationError(xs[i], gain, most, n);
      }
    } else {
      assert Divided(xs, 1.0) == xs;
    }
  }

  /** Every integer written fits 64 bits with room to spare. */
  lemma EntriesFit(xs: seq<real>, options: Options, i: nat)
    requires i < |xs| && Encoded(xs, options).data[i].Whole?
    ensures -18000000000000000 <= Encoded(xs, options).data[i].n <= 18000000000000000
    ensures -0x8000_0000_0000_0000 <= Encoded(xs, options).data[i].n < 0x8000_0000_0000_0000
  {
    var vs := Levels(xs, options);
    assert AllWhole(vs) && IsWhole(vs[i]);
    var y := if i == 0 || !options.enableDelta then 0.0 else vs[i - 1];
    assert IsWhole(y);
    WholeDifference(vs[i], y);
  }

  // ---------- Full scale ----------

  lemma ScaledRange(x: real, gain: real, most: real, n: real)
    requires 0.0 < gain && gain * most == n && Abs(x) <= most
    ensures -n <= x * gain <= n
    ensures x == most ==> x * gain == n
    ensures x == -most ==> x * gain == -n
  {
    ProductIsNonNegative(gain, most - x);
    ProductIsNonNegative(gain, most + x);
  }

  lemma LevelInRange(x: real, gain: real, most: real, n: nat)
    requires 0.0 < gain && 0.0 < most && gain * most == n as real && Abs(x) <= most
    ensures -(n as real) <= Level(x, gain) <= n as real
    ensures Abs(x) == most ==> Abs(Level(x, gain)) == n as real
    ensures Level(x, gain) == Level(x, gain).Floor as real
  {
    ScaledRange(x, gain, most, n as real);
    RoundStaysInRange(x * gain, n);
    hide Round;
  }

  /** Whole numbers in [-n, n], one of them at an end of the scale. */
  ghost predicate FillsTheScale(vs: seq<real>, n: real) {
    && AllWhole(vs)
    && (forall i :: 0 <= i < |vs| ==> -n <= vs[i] <= n)
    && exists i :: 0 <= i < |vs| && Abs(vs[i]) == n
  }

  /**
   Quantized samples lie in [-levels, levels] and the largest of them is at full scale, so
   they are all whole numbers and differencing is never declined.
   */
  lemma QuantizedFillsTheScale(xs: seq<real>, options: Options)
    requires Quantizes(xs, options)
    ensures FillsTheScale(Levels(xs, options), options.levels as real)
    ensures Encoded(xs, options).deltaEncoded == options.enableDelta
  {
    hide Quantizes, Gain, FillsTheScale, Levels, MaximumAbsolute, Scaled, AllWhole;
    QuantizedFacts(xs, options);
    ScaledFills(xs, Gain(xs, options), MaximumAbsolute(xs), options.levels);
    FilledIsWhole(Levels(xs, options), options.levels as real);
  }

  lemma FilledIsWhole(vs: seq<real>, n: real)
    requires FillsTheScale(vs, n)
    ensures AllWhole(vs)
  {
  }

  lemma ScaledFills(xs: seq<real>, gain: real, most: real, n: Int32)
    requires 0.0 < gain && 0.0 < most && 0 < n && gain * most == n as real && most == MaximumAbsolute(xs)
    ensures FillsTheScale(Scaled(xs, gain), n as real)
  {
    hide Level, MaximumAbsolute;
    MaximumIsAttained(xs);
    var k :| 0 <= k < |xs| && Abs(xs[k]) == most;
    var vs := Scaled(xs, gain);
    forall i | 0 <= i < |vs|
      ensures -(n as real) <= vs[i] <= n as real && IsWhole(vs[i])
      ensures Abs(xs[i]) == most ==> Abs(vs[i]) == n as real
    {
      LevelInRange(xs[i], gain, most, n);
      assert vs[i] == Level(xs[i], gain);
    }
    assert Abs(vs[k]) == n as real;
  }

  lemma MaximumIs(ys: seq<real>, m: real)
    requires 0.0 < m && (forall i :: 0 <= i < |ys| ==> Abs(ys[i]) <= m)
    requires exists i :: 0 <= i < |ys| && Abs(ys[i]) == m
    ensures MaximumAbsolute(ys) == m
  {
    hide MaximumAbsolute;
    MaximumIsAttained(ys);
  }

  lemma RescaledLevel(v: real, gain: real)
    requires 0.0 < gain && v == v.Floor as real
    ensures Level(v / gain, gain) == v
  {
    var x := v / gain;
    assert x * gain == v;
    LevelOfWhole(x, gain, v);
  }

  lemma LevelOfWhole(x: real, gain: real, v: real)
    requires x * gain == v && v == v.Floor as real
    ensures Level(x, gain) == v
  {
    RoundOfWhole(x * gain, v.Floor);
    hide Round;
  }

  lemma ScaledMagnitude(v: real, gain: real, most: real, n: real)
    requires 0.0 < gain && 0.0 < most && gain * most == n && -n <= v <= n
    ensures Abs(v / gain) <= most
    ensures Abs(v) == n ==> Abs(v / gain) == most
  {
    var y := v / gain;
    assert y * gain == v;
    if most < y {
      ProductIsPositive(gain, y - most);
    }
    if most < -y {
      ProductIsPositive(gain, -y - most);
    }
    if v == n {
      Cancelled(gain, y, most);
    } else if v == -n {
      Cancelled(gain, y, -most);
    }
  }

  lemma DividedScalesBack(vs: seq<real>, gain: real, most: real, n: real)
    requires 0.0 < gain && 0.0 < most && gain * most == n && FillsTheScale(vs, n)
    ensures MaximumAbsolute(Divided(vs, gain)) == most && Scaled(Divided(vs, gain), gain) == vs
  {
    hide Level, MaximumAbsolute;
    var ys := Divided(vs, gain);
    var k :| 0 <= k < |vs| && Abs(vs[k]) == n;
    forall i | 0 <= i < |ys|
      ensures Abs(ys[i]) <= most && (Abs(vs[i]) == n ==> Abs(ys[i]) == most)
      ensures Level(ys[i], gain) == vs[i]
    {
      assert IsWhole(vs[i]);
      ScaledMagnitude(vs[i], gain, most, n);
      RescaledLevel(vs[i], gain);
    }
    assert Abs(ys[k]) == most;
    MaximumIs(ys, most);
  }

  lemma DecodedQuantizesAlike(xs: seq<real>, options: Options)
    requires Quantizes(xs, options)
    ensures var ys := Divided(Levels(xs, options), Gain(xs, options));
            MaximumAbsolute(ys) == MaximumAbsolute(xs) && Levels(ys, options) == Levels(xs, options)
  {
    hide Quantizes, MaximumAbsolute, Levels, FillsTheScale, Scaled, Gain, Divided;
    QuantizedFacts(xs, options);
    var vs, gain := Levels(xs, options), Gain(xs, options);
    var ys := Divided(vs, gain);
    QuantizedFillsTheScale(xs, options);
    DividedScalesBack(vs, gain, MaximumAbsolute(xs), options.levels as real);
    SameMaximumSameGain(xs, ys, options);
    QuantizedFacts(ys, options);
  }

  lemma SameMaximumSameGain(xs: seq<real>, ys: seq<real>, options: Options)
    requires MaximumAbsolute(xs) == MaximumAbsolute(ys)
    ensures Quantizes(xs, options) == Quantizes(ys, options) && Gain(xs, options) == Gain(ys, options)
  {
    hide MaximumAbsolute;
  }

  /** Encoding what the decoder recovered gives the identical reply. */
  lemma EncodingIsIdempotent(xs: seq<real>, options: Options)
    ensures Encoded(xs, options).gain > 0.0
    ensures Encoded(Decoded(Encoded(xs, options)), options) == Encoded(xs, options)
  {
    DecodedIsDivided(xs, options);
    if Quantizes(xs, options) {
      DecodedQuantizesAlike(xs, options);
    } else {
      DecoderRecovers(xs, options);
    }
  }

  // ---------- The writer and the reader ----------

  /** Writes samples out under the options and says what was really done. */
  method WriteSamples(data: seq<real>, options: Options) returns (reply: Reply)
    ensures reply == Encoded(data, options)
  {
    hide Gain, Levels, IsWhole, Truncate;
    var values, gain := Quantize(data, options);
    var isWholeNumbered := forall i :: 0 <= i < |values| ==> IsWhole(values[i]);
    var deltaEncoded := options.enableDelta && isWholeNumbered;
    var samples := [];
    if deltaEncoded {
      samples := WriteDifferences(values);
    } else if isWholeNumbered {
      for i := 0 to |values|
        invariant samples == Integers(values)[..i]
      {
        samples := samples + [Whole(Truncate(values[i]))];
      }
    } else {
      for i := 0 to |values|
        invariant samples == Fractions(values)[..i]
      {
        samples := samples + [Fraction(values[i])];
      }
    }
    return Reply(samples, gain, deltaEncoded);
  }

  method WriteDifferences(values: seq<real>) returns (samples: seq<Entry>)
    ensures samples == Differences(values)
  {
    hide Truncate;
    samples := [];
    var previous := 0.0;
    for i := 0 to |values|
      invariant previous == if i == 0 then 0.0 else values[i - 1]
      invariant samples == Differences(values)[..i]
    {
      samples := samples + [Whole(Truncate(values[i] - previous))];
      previous := values[i];
    }
  }

  /** Chooses the gain from the data and rounds, if asked to and if there is anything to scale. */
  method Quantize(data: seq<real>, options: Options) returns (values: seq<real>, gain: real)
    ensures values == Levels(data, options) && gain == Gain(data, options)
  {
    hide MaximumAbsolute, Level;
    gain := 1.0;
    values := data;
    NothingToScale();
    if options.enableQuantization && data != [] && options.levels > 0 {
      var maximumAbsolute := LargestOf(data);
      if maximumAbsolute > 0.0 {
        gain := options.levels as real / maximumAbsolute;
        values := [];
        for i := 0 to |data|
          invariant values == Scaled(data, gain)[..i]
        {
          values := values + [Level(data[i], gain)];
        }
      }
    }
  }

  lemma NothingToScale()
    ensures MaximumAbsolute([]) == 0.0
  {
  }

  method LargestOf(data: seq<real>) returns (maximumAbsolute: real)
    ensures maximumAbsolute == MaximumAbsolute(data)
  {
    maximumAbsolute := 0.0;
    for i := 0 to |data|
      invariant maximumAbsolute == MaximumAbsolute(data[..i])
    {
      assert data[..i + 1][..i] == data[..i];
      if maximumAbsolute < Abs(data[i]) {
        maximumAbsolute := Abs(data[i]);
      }
    }
    assert data[..|data|] == data;
  }

  /** Undoes the differences if there are any, then divides by the gain. */
  method Decode(reply: Reply) returns (result: seq<real>)
    requires reply.gain != 0.0
    ensures result == Decoded(reply)
  {
    result := [];
    var running := 0.0;
    ghost var rs := Running(reply.data, reply.deltaEncoded);
    for i := 0 to |reply.data|
      invariant running == if i == 0 then 0.0 else rs[i - 1]
      invariant result == Decoded(reply)[..i]
    {
      var value := Number(reply.data[i]);
      RunningAt(reply.data, reply.deltaEncoded, i);
      running := if reply.deltaEncoded then running + value else value;
      result := result + [running / reply.gain];
    }
  }

  lemma {:induction false} RunningAt(es: seq<Entry>, deltaEncoded: bool, i: nat)
    requires i < |es|
    ensures Running(es, deltaEncoded)[i]
            == if deltaEncoded && i > 0 then Running(es, deltaEncoded)[i - 1] + Number(es[i]) else Number(es[i])
    decreases |es|
  {
    if i < |es| - 1 {
      RunningAt(es[..|es| - 1], deltaEncoded, i);
    }
  }
}
