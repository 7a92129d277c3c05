/** The designed filters, the entry point that picks one of them, and demeaning. */
module Bandpass {
  import opened Outcomes
  import opened RealAlgebra
  import opened Biquads
  import opened Cascades
  import opened Stability
  import opened Decay

  // ---------- The six designs ----------

  const NUMERATORS_40: seq<Taps> := [
    Taps(0.6734790477138246, 1.3469580954276492, 0.6734790477138246),
    Taps(1.0, 0.0, -1.0),
    Taps(1.0, -2.0, 1.0)
  ]

  const DENOMINATORS_40: seq<Taps> := [
    Taps(1.0, 1.6484753179477056, 0.7338442895664062),
    Taps(1.0, -0.19991468011753089, -0.6681786379192985),
    Taps(1.0, -1.918993448174642, 0.9249638747061851)
  ]

  const NUMERATORS_80: seq<Taps> := [
    Taps(0.8214636347864291, 1.6429272695728583, 0.8214636347864291),
    Taps(1.0, 0.0, -1.0),
    Taps(1.0, -2.0, 1.0)
  ]

  const DENOMINATORS_80: seq<Taps> := [
    Taps(1.0, 1.8322493755567273, 0.8551240027931296),
    Taps(1.0, -0.107703445133422, -0.8206787908286602),
    Taps(1.0, -1.9600400538405367, 0.9615546705021153)
  ]

  const NUMERATORS_100: seq<Taps> := [
    Taps(0.7065679722682777, 1.4131359445365554, 0.7065679722682777),
    Taps(1.0, 0.0, -1.0),
    Taps(1.0, -2.0, 1.0)
  ]

  const DENOMINATORS_100: seq<Taps> := [
    Taps(1.0, 1.647913599700461, 0.7329342638536966),
    Taps(1.0, -0.24355497400690285, -0.7028117712403572),
    Taps(1.0, -1.9681772087145875, 0.9691512708948594)
  ]

  const NUMERATORS_200: seq<Taps> := [
    Taps(0.717921056028987, 1.435842112057974, 0.717921056028987),
    Taps(1.0, 0.0, -1.0),
    Taps(1.0, -2.0, 1.0)
  ]

  const DENOMINATORS_200: seq<Taps> := [
    Taps(1.0, 1.6477316110123414, 0.7326354764117732),
    Taps(1.0, -0.2584223068197652, -0.7146105533645492),
    Taps(1.0, -1.9841892720072534, 0.9844343905181866)
  ]

  const NUMERATORS_500: seq<Taps> := [
    Taps(0.7723380978421511, 1.5446761956843023, 0.7723380978421511),
    Taps(1.0, 0.0, -1.0),
    Taps(1.0, -2.0, 1.0)
  ]

  const DENOMINATORS_500: seq<Taps> := [
    Taps(1.0, 1.7229839217145448, 0.7788929286543191),
    Taps(1.0, -0.21821025731826826, -0.7706599046098872),
    Taps(1.0, -1.9936996438745507, 0.9937390141821811)
  ]

  const NUMERATORS_1000: seq<Taps> := [
    Taps(0.5258784146071691, 1.0517568292143382, 0.5258784146071691),
    Taps(1.0, 0.0, -1.0),
    Taps(1.0, -2.0, 1.0)
  ]

  const DENOMINATORS_1000: seq<Taps> := [
    Taps(1.0, 1.2505393112081853, 0.5459198908866272),
    Taps(1.0, -0.48771304484689926, -0.5075484297228321),
    Taps(1.0, -1.9968550812497046, 0.9968649403993294)
  ]

  predicate HasDesign(samplingRate: int) {
    samplingRate in {40, 80, 100, 200, 500, 1000}
  }

  function Numerators(samplingRate: int): seq<Taps>
    requires HasDesign(samplingRate)
  {
    match samplingRate
    case 40 => NUMERATORS_40
    case 80 => NUMERATORS_80
    case 100 => NUMERATORS_100
    case 200 => NUMERATORS_200
    case 500 => NUMERATORS_500
    case _ => NUMERATORS_1000
  }

  function Denominators(samplingRate: int): (as_: seq<Taps>)
    requires HasDesign(samplingRate)
    ensures |as_| == |Numerators(samplingRate)| == 3 && Normalisable(as_)
  {
    match samplingRate
    case 40 => DENOMINATORS_40
    case 80 => DENOMINATORS_80
    case 100 => DENOMINATORS_100
    case 200 => DENOMINATORS_200
    case 500 => DENOMINATORS_500
    case _ => DENOMINATORS_1000
  }

  /** The three sections of a design. */
  function Design(samplingRate: int): (cs: seq<Section>)
    requires HasDesign(samplingRate)
    ensures |cs| == 3
  {
    NormalisedAll(Numerators(samplingRate), Denominators(samplingRate))
  }

  lemma UnitDenominators(samplingRate: int)
    requires HasDesign(samplingRate)
    ensures forall i :: 0 <= i < 3 ==> Denominators(samplingRate)[i].c0 == 1.0
  {
  }

  /** Every tabulated section is stable and has no pole at DC; two numerators stop constants. */
  lemma DesignsAreSound(samplingRate: int)
    requires HasDesign(samplingRate)
    ensures AllStable(Design(samplingRate))
    ensures NoPoleAtDC(Design(samplingRate))
    ensures ZeroSum(Design(samplingRate)[1]) && ZeroSum(Design(samplingRate)[2])
    ensures HasZeroSum(Design(samplingRate))
  {
    UnitDenominators(samplingRate);
  }

  /** What a signal comes out as: the design run from its primed or its resting state. */
  function Bandpassed(xs: seq<real>, samplingRate: int, steadyState: bool): (ys: seq<real>)
    requires HasDesign(samplingRate)
    ensures |ys| == |xs|
  {
    if xs == [] then [] else
    CascadeRun(Design(samplingRate), if steadyState then Primed(Design(samplingRate), xs[0]) else AtRest(3), xs)
  }

  /** The dispatch on the sampling rate.  An empty signal is returned before the rate is looked at. */
  method BandpassFilter(x: seq<real>, samplingRate: int, steadyState: bool := true)
    returns (r: Result<seq<real>>)
    ensures x == [] ==> r == Ok([])
    ensures x != [] && !HasDesign(samplingRate) ==> r == Throws(RuntimeError)
    ensures x != [] && HasDesign(samplingRate) ==> r == Ok(Bandpassed(x, samplingRate, steadyState))
  {
    hide CascadeRun, Primed, NormalisedAll;
    if x == [] {
      return Ok(x);
    }
    var sos;
    if samplingRate == 100 {
      sos := SecondOrderSections.Create(NUMERATORS_100, DENOMINATORS_100);
    } else if samplingRate == 40 {
      sos := SecondOrderSections.Create(NUMERATORS_40, DENOMINATORS_40);
    } else if samplingRate == 80 {
      sos := SecondOrderSections.Create(NUMERATORS_80, DENOMINATORS_80);
    } else if samplingRate == 200 {
      sos := SecondOrderSections.Create(NUMERATORS_200, DENOMINATORS_200);
    } else if samplingRate == 500 {
      sos := SecondOrderSections.Create(NUMERATORS_500, DENOMINATORS_500);
    } else if samplingRate == 1000 {
      sos := SecondOrderSections.Create(NUMERATORS_1000, DENOMINATORS_1000);
    } else {
      return Throws(RuntimeError);
    }
    assert sos.Ok?;
    var y := sos.value.Filter(x, steadyState);
    return Ok(y);
  }

  /** The one design whose rate an observed one is near enough to. */
  function GetValidSamplingRate(samplingRate: real): (r: Result<int>)
    ensures r.Ok? ==> HasDesign(r.value)
    ensures r == Ok(40) <==> 39.9999 < samplingRate < 40.0001
    ensures r == Ok(80) <==> 79.9999 < samplingRate < 80.0001
    ensures r == Ok(100) <==> 99.999 < samplingRate < 100.001
    ensures r == Ok(200) <==> 199.999 < samplingRate < 200.001
    ensures r == Ok(500) <==> 499.998 < samplingRate < 500.002
    ensures r == Ok(1000) <==> 999.99 < samplingRate < 1000.01
    ensures r == Throws(InvalidArgument) <==> samplingRate <= 0.0
    ensures r.Throws? ==> r.exception in {InvalidArgument, RuntimeError}
  {
    if samplingRate <= 0.0 then Throws(InvalidArgument)
    else if Abs(samplingRate - 100.0) < 0.001 then Ok(100)
    else if Abs(samplingRate - 40.0) < 0.0001 then Ok(40)
    else if Abs(samplingRate - 80.0) < 0.0001 then Ok(80)
    else if Abs(samplingRate - 200.0) < 0.001 then Ok(200)
    else if Abs(samplingRate - 500.0) < 0.002 then Ok(500)
    else if Abs(samplingRate - 1000.0) < 0.01 then Ok(1000)
    else Throws(RuntimeError)
  }

  // ---------- Demeaning ----------

  function Sum(xs: seq<real>): real
    decreases |xs|
  {
    if xs == [] then 0.0 else Sum(xs[..|xs| - 1]) + xs[|xs| - 1]
  }

  function Mean(xs: seq<real>): real
    requires xs != []
  {
    Sum(xs) / |xs| as real
  }

  function Demeaned(xs: seq<real>): (ys: seq<real>)
    requires xs != []
    ensures |ys| == |xs|
  {
    Shifted(xs, Mean(xs))
  }

  function Demean(xs: seq<real>): Result<seq<real>> {
    if xs == [] then Throws(InvalidArgument) else Ok(Demeaned(xs))
  }

  lemma {:induction false} SumOfShifted(xs: seq<real>, offset: real)
    ensures Sum(Shifted(xs, offset)) == Sum(xs) - |xs| as real * offset
    decreases |xs|
  {
    if xs != [] {
      var n := |xs| - 1;
      SumOfShifted(xs[..n], offset);
      assert Shifted(xs, offset)[..n] == Shifted(xs[..n], offset);
      assert |xs| as real * offset == n as real * offset + offset;
    }
  }

  /** Demeaning leaves a zero mean and every difference, so doing it twice changes nothing. */
  lemma DemeanedHasZeroMean(xs: seq<real>)
    requires xs != []
    ensures Sum(Demeaned(xs)) == 0.0
    ensures forall i, j :: 0 <= i < |xs| && 0 <= j < |xs| ==>
              Demeaned(xs)[i] - Demeaned(xs)[j] == xs[i] - xs[j]
    ensures Demean(Demeaned(xs)) == Ok(Demeaned(xs))
  {
    SumOfShifted(xs, Mean(xs));
    var n := |xs| as real;
    assert n * Mean(xs) == Sum(xs);
    assert Mean(Demeaned(xs)) == 0.0;
    assert Shifted(Demeaned(xs), 0.0) == Demeaned(xs);
  }

  // ---------- What the whole chain promises ----------

  /** Started primed, every design gives the demeaned signal the answer it gives the signal. */
  lemma DemeaningIsAbsorbed(xs: seq<real>, samplingRate: int)
    requires xs != [] && HasDesign(samplingRate)
    ensures Bandpassed(Demeaned(xs), samplingRate, true) == Bandpassed(xs, samplingRate, true)
  {
    DesignsAreSound(samplingRate);
    OffsetsDoNotMatter(Design(samplingRate), xs, Mean(xs));
  }

  /** Started primed, every design takes a constant to zero from its first sample. */
  lemma ConstantsVanish(samplingRate: int, n: nat, value: real)
    requires HasDesign(samplingRate)
    ensures Bandpassed(Constant(n, value), samplingRate, true) == Constant(n, 0.0)
  {
    DesignsAreSound(samplingRate);
    PrimedConstant(Design(samplingRate), value, n);
    ZeroSumStopsConstants(Design(samplingRate), value);
  }

  lemma SilenceVanishes()
    ensures Vanishes(SILENT)
  {
    forall bound | 0.0 < bound
      ensures EventuallyBelow(SquareOf(SILENT), bound)
    {
      forall n: nat
        ensures SquareOf(SILENT)(n) < bound
      {
        assert SILENT(n) == 0.0;
      }
      assert BelowFrom(SquareOf(SILENT), bound, 0);
    }
  }

  /** n samples of a stream. */
  function Excerpt(x: Stream, start: nat, n: nat): (xs: seq<real>)
    ensures |xs| == n
    ensures forall i :: 0 <= i < n ==> xs[i] == x(start + i)
  {
    seq(n, i requires 0 <= i < n => x(start + i))
  }

  /** A finite run is an excerpt of the unbounded one. */
  lemma {:induction false} RunIsExcerpt(cs: seq<Section>, zs: seq<State>, x: Stream, start: nat, n: nat, i: nat)
    requires |cs| == |zs| && i < n
    ensures CascadeRun(cs, StatesAt(cs, zs, x, start), Excerpt(x, start, n))[i] == CascadeStage(cs, zs, x)(start + i)
    decreases i
  {
    hide CascadeOutput, CascadeNext, StatesAt, CascadeStage;
    CascadeStep(cs, zs, x, start);
    assert Excerpt(x, start, n)[1..] == Excerpt(x, start + 1, n - 1);
    if i != 0 {
      RunIsExcerpt(cs, zs, x, start + 1, n - 1, i - 1);
      assert start + 1 + (i - 1) == start + i;
    }
  }

  /** From the states a cascade starts in. */
  lemma RunFromStart(cs: seq<Section>, zs: seq<State>, x: Stream, n: nat, i: nat)
    requires |cs| == |zs| && i < n
    ensures CascadeRun(cs, zs, Excerpt(x, 0, n))[i] == CascadeStage(cs, zs, x)(i)
  {
    hide CascadeRun, CascadeStage, CascadeOutput, CascadeNext;
    assert StatesAt(cs, zs, x, 0) == zs;
    RunIsExcerpt(cs, zs, x, 0, n, i);
  }

  lemma SilentExcerpt(n: nat)
    ensures Excerpt(SILENT, 0, n) == Constant(n, 0.0)
  {
  }

  /** The primed and the resting answers differ by what the primed states ring out with. */
  lemma DifferenceIsRinging(samplingRate: int, xs: seq<real>, i: nat)
    requires HasDesign(samplingRate) && i < |xs|
    ensures Bandpassed(xs, samplingRate, true)[i] - Bandpassed(xs, samplingRate, false)[i]
            == CascadeStage(Design(samplingRate), Primed(Design(samplingRate), xs[0]), SILENT)(i)
  {
    var cs := Design(samplingRate);
    var zs := Primed(cs, xs[0]);
    Superposition(cs, 1.0, zs, xs, -1.0, AtRest(3), xs);
    assert MixStates(1.0, zs, -1.0, AtRest(3)) == zs;
    assert Mix(1.0, xs, -1.0, xs) == Constant(|xs|, 0.0);
    SilentExcerpt(|xs|);
    RunFromStart(cs, zs, SILENT, |xs|, i);
  }

  lemma RingingIsRun(cs: seq<Section>, zs: seq<State>, i: nat)
    requires |cs| == |zs|
    ensures CascadeStage(cs, zs, SILENT)(i) == CascadeRun(cs, zs, Constant(i + 1, 0.0))[i]
  {
    SilentExcerpt(i + 1);
    RunFromStart(cs, zs, SILENT, i + 1, i);
  }

  /** What the primed states ring out with is proportional to the first sample. */
  lemma RingingScales(cs: seq<Section>, first: real, i: nat)
    ensures CascadeStage(cs, Primed(cs, first), SILENT)(i) == first * CascadeStage(cs, Primed(cs, 1.0), SILENT)(i)
  {
    hide CascadeOutput, CascadeNext, CascadeStage, CascadeRun, Primed;
    var silence, unit := Constant(i + 1, 0.0), Primed(cs, 1.0);
    RingingIsRun(cs, Primed(cs, first), i);
    RingingIsRun(cs, unit, i);
    PrimingSuperposes(cs, first, 1.0, 0.0, 1.0);
    Superposition(cs, first, unit, silence, 0.0, unit, silence);
    assert Mix(first, silence, 0.0, silence) == silence;
  }

  /** How far apart the primed and the resting answers are at a sample. */
  function Apart(samplingRate: int, xs: seq<real>, i: nat): real
    requires HasDesign(samplingRate) && i < |xs|
  {
    Bandpassed(xs, samplingRate, true)[i] - Bandpassed(xs, samplingRate, false)[i]
  }

  /** What a design rings out with when it was primed for a unit sample. */
  function UnitRinging(samplingRate: int): Stream
    requires HasDesign(samplingRate)
  {
    CascadeStage(Design(samplingRate), Primed(Design(samplingRate), 1.0), SILENT)
  }

  lemma ApartIsScaledRinging(samplingRate: int, xs: seq<real>, i: nat)
    requires HasDesign(samplingRate) && i < |xs|
    ensures Apart(samplingRate, xs, i) == xs[0] * UnitRinging(samplingRate)(i)
  {
    hide Design, CascadeStage, Bandpassed;
    DifferenceIsRinging(samplingRate, xs, i);
    RingingScales(Design(samplingRate), xs[0], i);
  }

  /** From sample `from` on, how the filter was started shows by at most `bound` times the first sample. */
  ghost predicate StartForgotten(samplingRate: int, bound: real, from: nat)
    requires HasDesign(samplingRate)
  {
    forall xs: seq<real>, i: nat | from <= i < |xs| :: Abs(Apart(samplingRate, xs, i)) <= bound * Abs(xs[0])
  }

  lemma UnitRingingFades(samplingRate: int)
    requires HasDesign(samplingRate)
    ensures Vanishes(UnitRinging(samplingRate)) && Decays(UnitRinging(samplingRate))
  {
    DesignsAreSound(samplingRate);
    hide Design, CascadeStage, Decays, Vanishes, AllStable;
    SilenceVanishes();
    CascadeVanishes(Design(samplingRate), Primed(Design(samplingRate), 1.0), SILENT);
    SilenceDecays();
    CascadeDecays(Design(samplingRate), Primed(Design(samplingRate), 1.0), SILENT);
  }

  lemma ScaledBelow(first: real, unit: real, bound: real)
    requires Abs(unit) < bound
    ensures Abs(first * unit) <= bound * Abs(first)
  {
    ProductIsNonNegative(Abs(first), bound - unit);
    ProductIsNonNegative(Abs(first), bound + unit);
  }

  /**
   The start is forgotten: for every design and every bound there is one sample number past
   which, on every signal whatever, the primed and the resting answers differ by at most the
   bound times the signal's first sample.
   */
  lemma TheStartIsForgotten(samplingRate: int, bound: real)
    requires HasDesign(samplingRate) && 0.0 < bound
    ensures exists n: nat :: StartForgotten(samplingRate, bound, n)
  {
    hide Square, UnitRinging, Apart, Vanishes, StartForgotten;
    UnitRingingFades(samplingRate);
    var ringing := UnitRinging(samplingRate);
    SquareIsPositive(bound);
    VanishesBelow(ringing, Square(bound));
    var n: nat :| BelowFrom(SquareOf(ringing), Square(bound), n);
    ForgottenFrom(samplingRate, bound, n);
  }

  lemma ForgottenFrom(samplingRate: int, bound: real, n: nat)
    requires HasDesign(samplingRate) && 0.0 < bound
    requires BelowFrom(SquareOf(UnitRinging(samplingRate)), Square(bound), n)
    ensures StartForgotten(samplingRate, bound, n)
  {
    hide Square, UnitRinging, Apart;
    forall xs: seq<real>, i: nat | n <= i < |xs|
      ensures Abs(Apart(samplingRate, xs, i)) <= bound * Abs(xs[0])
    {
      var r := UnitRinging(samplingRate)(i);
      ApartIsScaledRinging(samplingRate, xs, i);
      assert Square(r) == SquareOf(UnitRinging(samplingRate))(i) < Square(bound);
      SquareOrder(r, bound);
      ScaledBelow(xs[0], r, bound);
    }
  }

  /** The difference fades at least as fast as this: a power of rate, one factor for every two samples. */
  ghost predicate StartFades(samplingRate: int, rate: real, scale: real)
    requires HasDesign(samplingRate)
  {
    forall xs: seq<real>, i: nat | i < |xs| ::
      Square(Apart(samplingRate, xs, i)) <= Square(xs[0]) * Product(scale, Power(rate, i / 2))
  }

  /**
   And it is forgotten geometrically: every design has a rate below one and a scale such that,
   on every signal and at every sample, the primed and the resting answers differ by no more
   than the first sample times what is left of the scale after one factor for every two samples.
   */
  lemma TheStartFadesGeometrically(samplingRate: int)
    requires HasDesign(samplingRate)
    ensures exists rate, scale :: 0.0 <= rate < 1.0 && 0.0 <= scale && StartFades(samplingRate, rate, scale)
  {
    hide UnitRinging, DecaysBy, StartFades;
    UnitRingingFades(samplingRate);
    var rate, scale :| 0.0 <= rate < 1.0 && 0.0 <= scale && DecaysBy(UnitRinging(samplingRate), rate, scale);
    FadesBy(samplingRate, rate, scale);
  }

  lemma FadesBy(samplingRate: int, rate: real, scale: real)
    requires HasDesign(samplingRate) && DecaysBy(UnitRinging(samplingRate), rate, scale)
    ensures StartFades(samplingRate, rate, scale)
  {
    hide Square, UnitRinging, Apart, Power, Product;
    forall xs: seq<real>, i: nat | i < |xs|
      ensures Square(Apart(samplingRate, xs, i)) <= Square(xs[0]) * Product(scale, Power(rate, i / 2))
    {
      var r := UnitRinging(samplingRate)(i);
      ApartIsScaledRinging(samplingRate, xs, i);
      ScaledSquare(xs[0], r, Apart(samplingRate, xs, i));
      SquareIsNonNegative(xs[0]);
      ProductIsNonNegative(Square(xs[0]), Product(scale, Power(rate, i / 2)) - Square(r));
    }
  }
}
