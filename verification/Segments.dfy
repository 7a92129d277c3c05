/** A run of evenly spaced samples and its setters, which keep the end time coherent. */
module Segments {
  import opened Outcomes
  import opened RealAlgebra
  import opened Rounding

  /** A segment with everything set: start time in nanoseconds, rate in hertz, samples. */
  datatype Packet = Packet(start: int, rate: real, data: seq<real>)

  predicate Complete(p: Packet) {
    0.0 < p.rate && p.data != []
  }

  /** The sampling period in whole nanoseconds. */
  function Period(rate: real): (n: nat)
    requires 0.0 < rate
  {
    PeriodIsNonNegative(rate);
    Round(1000000000.0 / rate)
  }

  lemma PeriodIsNonNegative(rate: real)
    requires 0.0 < rate
    ensures 0 <= Round(1000000000.0 / rate)
  {
    var q := 1000000000.0 / rate;
    assert q * rate == 1000000000.0;
    if q < 0.0 {
      ProductIsPositive(-q, rate);
    }
    RoundIsNearest(q);
  }

  /** The whole number of nanoseconds nearest to a rate's period. */
  lemma PeriodIsNearest(rate: real)
    requires 0.0 < rate
    ensures Abs(Period(rate) as real - 1000000000.0 / rate) <= 0.5
  {
    RoundIsNearest(1000000000.0 / rate);
  }

  /** The time of the last sample. */
  function EndTime(p: Packet): int
    requires Complete(p)
  {
    p.start + Period(p.rate) * (|p.data| - 1)
  }

  /** When a segment's sample k is due, on the unrounded grid. */
  function Due(p: Packet, k: nat): real
    requires 0.0 < p.rate
  {
    p.start as real + k as real * (1000000000.0 / p.rate)
  }

  /** The end time is when the last sample is due, off by at most half a nanosecond for every period. */
  lemma EndTimeIsDue(p: Packet)
    requires Complete(p)
    ensures Abs(EndTime(p) as real - Due(p, |p.data| - 1)) <= 0.5 * (|p.data| - 1) as real
    ensures |p.data| == 1 ==> EndTime(p) == p.start
  {
    DueNearby(p, |p.data| - 1);
    hide Period, Due;
    assert |p.data| == 1 ==> Period(p.rate) * (|p.data| - 1) == 0;
  }

  /** A count of rounded periods is that close to the unrounded grid. */
  lemma DueNearby(p: Packet, k: nat)
    requires 0.0 < p.rate
    ensures Abs((p.start + Period(p.rate) * k) as real - Due(p, k)) <= 0.5 * k as real
  {
    PeriodIsNearest(p.rate);
    hide Period;
    StepsApart(k, Period(p.rate), 1000000000.0 / p.rate);
  }

  lemma StepsApart(k: nat, period: nat, exact: real)
    requires Abs(period as real - exact) <= 0.5
    ensures Abs((period * k) as real - k as real * exact) <= 0.5 * k as real
  {
    var n, e := k as real, period as real - exact;
    assert (period * k) as real == n * period as real;
    ProductIsNonNegative(n, 0.5 - e);
    ProductIsNonNegative(n, 0.5 + e);
    assert n * period as real - n * exact == n * e;
  }

  class Segment {
    var data: seq<real>
    var startTime: int
    var endTime: int
    var samplingRate: real
    var hasStartTime: bool
    var hasEndTime: bool

    /** The end time is set exactly when it can be, and then it is the time of the last sample. */
    ghost predicate Valid()
      reads this
    {
      && 0.0 <= samplingRate
      && (hasEndTime <==> IsComplete())
      && (hasEndTime ==> endTime == EndTime(Value()))
    }

    predicate IsComplete()
      reads this
    {
      hasStartTime && data != [] && 0.0 < samplingRate
    }

    function Value(): Packet
      reads this
    {
      Packet(startTime, samplingRate, data)
    }

    constructor ()
      ensures Valid() && !hasStartTime && data == [] && samplingRate == 0.0
    {
      data := [];
      startTime, endTime := 0, 0;
      samplingRate := 0.0;
      hasStartTime, hasEndTime := false, false;
    }

    constructor Copy(other: Segment)
      requires other.Valid()
      ensures Valid() && Value() == other.Value() && hasStartTime == other.hasStartTime
    {
      data := other.data;
      startTime, endTime := other.startTime, other.endTime;
      samplingRate := other.samplingRate;
      hasStartTime, hasEndTime := other.hasStartTime, other.hasEndTime;
    }

    method UpdateEndTime()
      requires 0.0 <= samplingRate
      modifies this`endTime, this`hasEndTime
      ensures Valid()
    {
      if hasStartTime && data != [] && samplingRate > 0.0 {
        PeriodIsNonNegative(samplingRate);
        var samplingPeriod := Round(1000000000.0 / samplingRate);
        endTime := startTime + samplingPeriod * (|data| - 1);
        hasEndTime := true;
      } else {
        hasEndTime := false;
      }
    }

    method SetSamplingRate(rate: real) returns (r: Result<()>)
      requires Valid()
      modifies this`samplingRate, this`endTime, this`hasEndTime
      ensures Valid()
      ensures r == if rate <= 0.0 then Throws(InvalidArgument) else Ok(())
      ensures samplingRate == if r.Ok? then rate else old(samplingRate)
      ensures r.Throws? ==> endTime == old(endTime)
    {
      if rate <= 0.0 {
        return Throws(InvalidArgument);
      }
      samplingRate := rate;
      UpdateEndTime();
      return Ok(());
    }

    method SetStartTime(time: int)
      requires Valid()
      modifies this`startTime, this`hasStartTime, this`endTime, this`hasEndTime
      ensures Valid() && hasStartTime && startTime == time
    {
      startTime := time;
      hasStartTime := true;
      UpdateEndTime();
    }

    method SetData(samples: seq<real>) returns (r: Result<()>)
      requires Valid()
      modifies this`data, this`endTime, this`hasEndTime
      ensures Valid()
      ensures r == if samples == [] then Throws(InvalidArgument) else Ok(())
      ensures data == if r.Ok? then samples else old(data)
      ensures r.Throws? ==> endTime == old(endTime)
    {
      if samples == [] {
        return Throws(InvalidArgument);
      }
      data := samples;
      UpdateEndTime();
      return Ok(());
    }

    /** Answers exactly when start, rate and data are set, whatever order they were set in. */
    method GetEndTime() returns (r: Result<int>)
      requires Valid()
      ensures r == if IsComplete() then Ok(EndTime(Value())) else Throws(RuntimeError)
    {
      if hasEndTime {
        return Ok(endTime);
      }
      return Throws(RuntimeError);
    }
  }
}
