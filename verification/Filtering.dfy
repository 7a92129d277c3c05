/** Demeaning and bandpass filtering a waveform, one segment at a time. */
module Filtering {
  import opened Outcomes
  import opened Sequences
  import opened Segments
  import opened Merging
  import opened Waveforms
  import opened Bandpass

  /** A segment's samples filtered by the design for its rate, or as they arrived if there is none. */
  function Filtered(p: CompletePacket): CompletePacket {
    var rate := GetValidSamplingRate(p.rate);
    if rate.Ok? then p.(data := Bandpassed(Demeaned(p.data), rate.value, true)) else p
  }

  function FilteredAll(ps: seq<CompletePacket>): (qs: seq<CompletePacket>)
    ensures |qs| == |ps| && forall i :: 0 <= i < |ps| ==> qs[i] == Filtered(ps[i])
  {
    seq(|ps|, i requires 0 <= i < |ps| => Filtered(ps[i]))
  }

  /**
   Filtering moves no segment in time and changes no rate and no number of samples.  The data
   is left alone exactly when no design fits the rate; otherwise it is the primed filter's
   answer, and demeaning first made no difference to it.
   */
  lemma FilteringKeepsTheGrid(p: CompletePacket)
    ensures Filtered(p).start == p.start && Filtered(p).rate == p.rate
    ensures |Filtered(p).data| == |p.data| && EndTime(Filtered(p)) == EndTime(p)
    ensures Filtered(p).data == match GetValidSamplingRate(p.rate)
                                case Ok(rate) => Bandpassed(p.data, rate, true)
                                case Throws(_) => p.data
  {
    var rate := GetValidSamplingRate(p.rate);
    if rate.Ok? {
      DemeaningIsAbsorbed(p.data, rate.value);
    }
  }

  lemma FilteringKeepsOrder(ps: seq<CompletePacket>)
    ensures Sorted(ps) ==> Sorted(FilteredAll(ps))
    ensures TiesAreEqual(ps) ==> TiesAreEqual(FilteredAll(ps))
  {
    hide Filtered;
    forall i | 0 <= i < |ps|
      ensures FilteredAll(ps)[i].start == ps[i].start
    {
      FilteringKeepsTheGrid(ps[i]);
    }
  }

  /** Filters a copy of one segment; on any failure the copy is as the segment arrived. */
  method FilterSegment(segment: Segment) returns (filtered: Segment)
    requires segment.Valid() && segment.IsComplete()
    ensures fresh(filtered) && filtered.Valid() && filtered.IsComplete()
    ensures filtered.Value() == Filtered(segment.Value())
  {
    filtered := new Segment.Copy(segment);
    var samplingRate := GetValidSamplingRate(segment.samplingRate);
    if samplingRate.Ok? {
      var demeaned := Demean(segment.data);
      if demeaned.Ok? {
        var samples := BandpassFilter(demeaned.value, samplingRate.value);
        if samples.Ok? {
          var _ := filtered.SetData(samples.value);
        }
      }
    }
  }

  method FilterEach(given: seq<Segment>) returns (segments: seq<Segment>)
    requires AllComplete(given)
    ensures fresh(segments) && Distinct(segments) && AllComplete(segments)
    ensures AllComplete(given) && Values(segments) == FilteredAll(old(Values(given)))
  {
    hide Filtered, EndTime;
    ghost var ps := Values(given);
    segments := [];
    for i := 0 to |given|
      invariant fresh(segments) && |segments| == i && Distinct(segments)
      invariant forall k :: 0 <= k < |given| ==> given[k].Valid() && given[k].IsComplete() && given[k].Value() == ps[k]
      invariant forall k :: 0 <= k < i ==>
                  segments[k].Valid() && segments[k].IsComplete() && segments[k].Value() == Filtered(ps[k])
    {
      var filtered := FilterSegment(given[i]);
      segments := segments + [filtered];
    }
  }

  /**
   Filters every segment into a new waveform and leaves the given one alone.  If no two
   unequal segments share a start time, segment i of the result is segment i, filtered.
   */
  method FilterWaveform(waveform: Waveform) returns (result: Waveform)
    requires waveform.Valid()
    ensures fresh(result) && result.Valid()
    ensures |result.segments| == |waveform.segments|
    ensures Rearranged(Values(result.segments), FilteredAll(old(Values(waveform.segments))))
    ensures TiesAreEqual(old(Values(waveform.segments))) ==>
              Values(result.segments) == FilteredAll(old(Values(waveform.segments)))
  {
    hide Filtered;
    ghost var ps := Values(waveform.segments);
    result := new Waveform();
    if waveform.segments == [] {
      return;
    }
    var segments := FilterEach(waveform.segments);
    var r, arranged := result.SetSegments(segments, false);
    assert Sorted(ps);
    ArrangedAlike(ps, arranged);
  }

  lemma ArrangedAlike(ps: seq<CompletePacket>, arranged: seq<CompletePacket>)
    requires Sorted(ps) && Sorted(arranged) && Rearranged(arranged, FilteredAll(ps))
    ensures |arranged| == |ps|
    ensures TiesAreEqual(ps) ==> arranged == FilteredAll(ps)
  {
    assert |multiset(arranged)| == |multiset(FilteredAll(ps))|;
    FilteringKeepsOrder(ps);
    if TiesAreEqual(ps) {
      SortedOneWay(FilteredAll(ps), arranged);
    }
  }
}
