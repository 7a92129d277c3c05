/** The arrivals of an origin: which lists are accepted, how they are kept, and their streams. */
module Arrivals {
  import opened Outcomes
  import opened Sequences

  datatype Phase = P | S

  datatype ReviewStatus = Automatic | Human | Finalized

  datatype StreamIdentifier =
    StreamIdentifier(network: string, station: string, channel: string, locationCode: string)

  datatype Arrival = Arrival(
    time: Option<int>,
    stream: Option<StreamIdentifier>,
    phase: Option<Phase>,
    reviewStatus: Option<ReviewStatus>)
  {
    predicate IsComplete() {
      time.Some? && stream.Some? && phase.Some? && reviewStatus.Some?
    }
  }

  type CompleteArrival = a: Arrival | a.IsComplete()
    witness Arrival(Some(0), Some(StreamIdentifier("", "", "", "")), Some(P), Some(Automatic))

  predicate AllComplete(arrivals: seq<Arrival>) {
    forall i :: 0 <= i < |arrivals| ==> arrivals[i].IsComplete()
  }

  /** Two picks of one phase on one stream. */
  predicate Repeats(a: CompleteArrival, b: CompleteArrival) {
    a.stream == b.stream && a.phase == b.phase
  }

  /** A P and an S on one stream, the P later. */
  predicate Inverts(p: CompleteArrival, s: CompleteArrival) {
    p.stream == s.stream && p.phase.value == P && s.phase.value == S && p.time.value > s.time.value
  }

  /** The condition on a list of arrivals, in which their order plays no part. */
  predicate Acceptable(arrivals: seq<Arrival>) {
    && arrivals != []
    && AllComplete(arrivals)
    && (forall i, j :: 0 <= i < j < |arrivals| ==> !Repeats(arrivals[i], arrivals[j]))
    && (forall i, j :: 0 <= i < |arrivals| && 0 <= j < |arrivals| ==> !Inverts(arrivals[i], arrivals[j]))
  }

  /** The same in plain terms: on one stream two picks are of different phases, and the P is not the later. */
  lemma AcceptableExactly(arrivals: seq<Arrival>)
    ensures Acceptable(arrivals) <==>
              && arrivals != []
              && (forall i :: 0 <= i < |arrivals| ==>
                    var a := arrivals[i];
                    a.time.Some? && a.stream.Some? && a.phase.Some? && a.reviewStatus.Some?)
              && (forall i, j :: 0 <= i < |arrivals| && 0 <= j < |arrivals| && i != j
                                 && arrivals[i].stream == arrivals[j].stream ==>
                    && arrivals[i].phase != arrivals[j].phase
                    && (arrivals[i].phase == Some(P) ==> arrivals[i].time.value <= arrivals[j].time.value))
  {
    if Acceptable(arrivals) {
      forall i, j | 0 <= i < |arrivals| && 0 <= j < |arrivals| && i != j && arrivals[i].stream == arrivals[j].stream
        ensures arrivals[i].phase != arrivals[j].phase
        ensures arrivals[i].phase == Some(P) ==> arrivals[i].time.value <= arrivals[j].time.value
      {
        assert !Repeats(arrivals[if i < j then i else j], arrivals[if i < j then j else i]);
        assert !Inverts(arrivals[i], arrivals[j]);
      }
    }
  }

  predicate TimeSorted(arrivals: seq<CompleteArrival>) {
    forall i, j :: 0 <= i < j < |arrivals| ==> arrivals[i].time.value <= arrivals[j].time.value
  }

  // ---------- Order plays no part ----------

  lemma AcceptanceIgnoresOrder(arrivals: seq<Arrival>, rearranged: seq<Arrival>)
    requires multiset(arrivals) == multiset(rearranged) && Acceptable(arrivals)
    ensures Acceptable(rearranged)
  {
    assert |multiset(arrivals)| == |arrivals|;
    forall k | 0 <= k < |rearranged|
      ensures rearranged[k].IsComplete()
    {
      var i := PlaceOf(arrivals, rearranged, k);
    }
    forall k, l | 0 <= k < l < |rearranged|
      ensures !Repeats(rearranged[k], rearranged[l])
    {
      var i, j;
      if rearranged[k] == rearranged[l] {
        TwiceCounts(rearranged, k, l);
        i, j := TwoOf(arrivals, rearranged[k]);
      } else {
        i := PlaceOf(arrivals, rearranged, k);
        j := PlaceOf(arrivals, rearranged, l);
      }
      assert Repeats(rearranged[k], rearranged[l]) ==>
               Repeats(arrivals[i], arrivals[j]) && Repeats(arrivals[j], arrivals[i]);
    }
    forall k, l | 0 <= k < |rearranged| && 0 <= l < |rearranged|
      ensures !Inverts(rearranged[k], rearranged[l])
    {
      var i := PlaceOf(arrivals, rearranged, k);
      var j := PlaceOf(arrivals, rearranged, l);
      assert !Inverts(arrivals[i], arrivals[j]);
    }
  }

  // ---------- The origin ----------

  /** Sorts by time.  What is promised leaves the order of equal times open, as std::sort does. */
  method SortByTime(arrivals: seq<CompleteArrival>) returns (sorted: seq<CompleteArrival>)
    ensures multiset(sorted) == multiset(arrivals) && TimeSorted(sorted)
  {
    sorted := [];
    for n := 0 to |arrivals|
      invariant multiset(sorted) == multiset(arrivals[..n]) && TimeSorted(sorted)
    {
      assert arrivals[..n + 1] == arrivals[..n] + [arrivals[n]];
      sorted := InsertByTime(sorted, arrivals[n]);
    }
    assert arrivals[..|arrivals|] == arrivals;
  }

  method InsertByTime(into: seq<CompleteArrival>, x: CompleteArrival) returns (sorted: seq<CompleteArrival>)
    requires TimeSorted(into)
    ensures multiset(sorted) == multiset(into) + multiset{x} && TimeSorted(sorted)
  {
    var k := |into|;
    while k > 0 && x.time.value < into[k - 1].time.value
      invariant 0 <= k <= |into|
      invariant forall i :: k <= i < |into| ==> x.time.value < into[i].time.value
    {
      k := k - 1;
    }
    sorted := into[..k] + [x] + into[k..];
    SplicedSorts(into, k, x);
    SplicedCounts(into, k, x);
  }

  lemma SplicedSorts(s: seq<CompleteArrival>, k: nat, x: CompleteArrival)
    requires TimeSorted(s) && k <= |s|
    requires k > 0 ==> s[k - 1].time.value <= x.time.value
    requires k < |s| ==> x.time.value <= s[k].time.value
    ensures TimeSorted(Spliced(s, k, x))
  {
    hide Spliced;
    var r := Spliced(s, k, x);
    forall i, j | 0 <= i < j < |r|
      ensures r[i].time.value <= r[j].time.value
    {
      SplicedAt(s, k, x, i);
      SplicedAt(s, k, x, j);
    }
  }

  class Origin {
    var arrivals: seq<Arrival>

    constructor ()
      ensures arrivals == []
    {
      arrivals := [];
    }

    /**
     Accepts exactly the acceptable lists, whichever way equal times are sorted, and keeps them
     sorted by time, still acceptable; otherwise throws and changes nothing.
     */
    method SetArrivals(given: seq<Arrival>) returns (outcome: Result<()>)
      modifies this`arrivals
      ensures outcome == if Acceptable(given) then Ok(()) else Throws(InvalidArgument)
      ensures outcome.Ok? ==> multiset(arrivals) == multiset(given) && Acceptable(arrivals) && TimeSorted(arrivals)
      ensures outcome.Throws? ==> arrivals == old(arrivals)
    {
      if given == [] {
        return Throws(InvalidArgument);
      }
      for k := 0 to |given|
        invariant forall i :: 0 <= i < k ==> given[i].IsComplete()
      {
        if given[k].time.None? || given[k].stream.None? || given[k].phase.None? || given[k].reviewStatus.None? {
          return Throws(InvalidArgument);
        }
      }
      var sorted := SortByTime(given);
      var fits := CheckPairs(sorted);
      if !fits {
        if Acceptable(given) {
          AcceptanceIgnoresOrder(given, sorted);
        }
        return Throws(InvalidArgument);
      }
      AcceptanceIgnoresOrder(sorted, given);
      arrivals := sorted;
      return Ok(());
    }
  }

  /** The pairwise check, which looks at each pair in one order only and needs no sorting to be right. */
  method CheckPairs(sorted: seq<CompleteArrival>) returns (fits: bool)
    requires sorted != []
    ensures fits <==> Acceptable(sorted)
  {
    for i := 0 to |sorted|
      invariant forall k, l :: 0 <= k < i && k < l < |sorted| ==> PairFits(sorted[k], sorted[l])
    {
      var sid1, iPhase := sorted[i].stream.value, sorted[i].phase.value;
      for j := i + 1 to |sorted|
        invariant forall l :: i < l < j ==> PairFits(sorted[i], sorted[l])
      {
        var sid2 := sorted[j].stream.value;
        if sid1.network == sid2.network && sid1.station == sid2.station
           && sid1.channel == sid2.channel && sid1.locationCode == sid2.locationCode {
          assert sorted[i].stream == sorted[j].stream;
          var jPhase := sorted[j].phase.value;
          if iPhase == jPhase {
            assert Repeats(sorted[i], sorted[j]);
            return false;
          }
          if iPhase == P && jPhase == S {
            if sorted[i].time.value > sorted[j].time.value {
              assert Inverts(sorted[i], sorted[j]);
              return false;
            }
          }
          if iPhase == S && jPhase == P {
            if sorted[i].time.value < sorted[j].time.value {
              assert Inverts(sorted[j], sorted[i]);
              return false;
            }
          }
        }
        assert PairFits(sorted[i], sorted[j]);
      }
    }
    PairsSuffice(sorted);
    return true;
  }

  predicate PairFits(a: CompleteArrival, b: CompleteArrival) {
    !Repeats(a, b) && !Inverts(a, b) && !Inverts(b, a)
  }

  lemma PairsSuffice(sorted: seq<CompleteArrival>)
    requires sorted != [] && forall k, l :: 0 <= k < l < |sorted| ==> PairFits(sorted[k], sorted[l])
    ensures Acceptable(sorted)
  {
    forall i, j | 0 <= i < |sorted| && 0 <= j < |sorted|
      ensures !Inverts(sorted[i], sorted[j])
    {
      assert i < j ==> PairFits(sorted[i], sorted[j]);
      assert j < i ==> PairFits(sorted[j], sorted[i]);
    }
  }

  // ---------- The streams to draw ----------

  predicate OccursBefore(arrivals: seq<Arrival>, n: nat, stream: StreamIdentifier)
    requires n <= |arrivals|
  {
    exists i :: 0 <= i < n && arrivals[i].stream == Some(stream)
  }

  predicate Occurs(arrivals: seq<Arrival>, stream: StreamIdentifier) {
    OccursBefore(arrivals, |arrivals|, stream)
  }

  /** Where a stream first occurs, or the length if it does not. */
  function FirstAt(arrivals: seq<Arrival>, stream: StreamIdentifier): (n: nat)
    ensures n <= |arrivals|
    ensures n < |arrivals| ==> arrivals[n].stream == Some(stream)
    ensures forall i :: 0 <= i < n ==> arrivals[i].stream != Some(stream)
  {
    if arrivals == [] || arrivals[0].stream == Some(stream) then 0 else 1 + FirstAt(arrivals[1..], stream)
  }

  /** Just the streams that occur, each at the place in line its first arrival gives it. */
  ghost predicate InOrderOfArrival(arrivals: seq<Arrival>, streams: seq<StreamIdentifier>) {
    && (forall s :: s in streams <==> Occurs(arrivals, s))
    && forall k, l :: 0 <= k < l < |streams| ==> FirstAt(arrivals, streams[k]) < FirstAt(arrivals, streams[l])
  }

  method StreamsFromArrivals(arrivals: seq<Arrival>) returns (streams: seq<StreamIdentifier>)
    ensures InOrderOfArrival(arrivals, streams)
  {
    streams := [];
    for n := 0 to |arrivals|
      invariant forall s :: s in streams <==> OccursBefore(arrivals, n, s)
      invariant forall k :: 0 <= k < |streams| ==> FirstAt(arrivals, streams[k]) < n
      invariant forall k, l :: 0 <= k < l < |streams| ==> FirstAt(arrivals, streams[k]) < FirstAt(arrivals, streams[l])
    {
      if arrivals[n].stream.None? {
        continue;
      }
      var stream := arrivals[n].stream.value;
      var alreadyHave := stream in streams;
      if !alreadyHave {
        assert FirstAt(arrivals, stream) == n;
        streams := streams + [stream];
      }
    }
  }

  /** Accepted arrivals number between one and two for each stream they are on. */
  lemma OneOrTwoPerStream(arrivals: seq<Arrival>, streams: seq<StreamIdentifier>)
    requires Acceptable(arrivals) && InOrderOfArrival(arrivals, streams)
    ensures 1 <= |streams| <= |arrivals| <= 2 * |streams|
  {
    forall k | 0 <= k < |streams|
      ensures FirstAt(arrivals, streams[k]) < |arrivals|
    {
      assert streams[k] in streams;
      var i :| 0 <= i < |arrivals| && arrivals[i].stream == Some(streams[k]);
    }
    Pigeonhole(seq(|streams|, k requires 0 <= k < |streams| => FirstAt(arrivals, streams[k])), |arrivals|);
    var places := Places(arrivals, streams);
    Pigeonhole(places, 2 * |streams|);
  }

  /** A number for each arrival below twice the number of streams, no two the same. */
  lemma Places(arrivals: seq<Arrival>, streams: seq<StreamIdentifier>) returns (places: seq<nat>)
    requires Acceptable(arrivals) && forall s :: Occurs(arrivals, s) ==> s in streams
    ensures |places| == |arrivals| && forall i :: 0 <= i < |places| ==> places[i] < 2 * |streams|
    ensures Distinct(places)
  {
    places := [];
    for n := 0 to |arrivals|
      invariant |places| == n
      invariant forall i :: 0 <= i < n ==> IsPlace(arrivals[i], streams, places[i])
    {
      assert Occurs(arrivals, arrivals[n].stream.value);
      var k: nat :| k < |streams| && streams[k] == arrivals[n].stream.value;
      places := places + [2 * k + if arrivals[n].phase.value == P then 0 else 1];
    }
    forall i, j | 0 <= i < j < |places|
      ensures places[i] != places[j]
    {
      assert !Repeats(arrivals[i], arrivals[j]);
    }
  }

  predicate IsPlace(a: CompleteArrival, streams: seq<StreamIdentifier>, n: nat) {
    && n / 2 < |streams| && streams[n / 2] == a.stream.value
    && n % 2 == if a.phase.value == P then 0 else 1
  }

  /** There is only one such list, so the order of the streams is settled by that of the arrivals. */
  lemma OnlyOneOrder(arrivals: seq<Arrival>, s: seq<StreamIdentifier>, t: seq<StreamIdentifier>)
    requires InOrderOfArrival(arrivals, s) && InOrderOfArrival(arrivals, t)
    ensures s == t
  {
    SameOrder(arrivals, s, t);
  }

  lemma {:induction false} SameOrder(arrivals: seq<Arrival>, s: seq<StreamIdentifier>, t: seq<StreamIdentifier>)
    requires forall x :: x in s <==> x in t
    requires forall k, l :: 0 <= k < l < |s| ==> FirstAt(arrivals, s[k]) < FirstAt(arrivals, s[l])
    requires forall k, l :: 0 <= k < l < |t| ==> FirstAt(arrivals, t[k]) < FirstAt(arrivals, t[l])
    ensures s == t
    decreases |s|
  {
    if s != [] {
      assert s[0] in t && t[0] in s;
      assert s[0] == t[0];
      assert forall x :: x in s[1..] <==> x in s && x != s[0];
      assert forall x :: x in t[1..] <==> x in t && x != t[0];
      SameOrder(arrivals, s[1..], t[1..]);
    } else {
      HeadIsIn(t);
    }
  }
}
