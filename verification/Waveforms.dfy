/** A waveform: its segments, checked, sorted by start time and joined where they continue. */
module Waveforms {
  import opened Outcomes
  import opened Sequences
  import opened RealAlgebra
  import opened Rounding
  import opened Segments
  import opened Merging

  ghost predicate AllValid(s: seq<Segment>)
    reads s
  {
    forall i :: 0 <= i < |s| ==> s[i].Valid()
  }

  ghost predicate AllComplete(s: seq<Segment>)
    reads s
  {
    forall i :: 0 <= i < |s| ==> s[i].Valid() && s[i].IsComplete()
  }

  ghost function Values(s: seq<Segment>): (ps: seq<CompletePacket>)
    requires AllComplete(s)
    reads s
    ensures |ps| == |s| && forall i :: 0 <= i < |s| ==> ps[i] == s[i].Value()
  {
    seq(|s|, i requires 0 <= i < |s| && s[i].IsComplete() reads s => s[i].Value())
  }

  ghost predicate StartsSorted(s: seq<Segment>)
    reads s
  {
    forall i, j :: 0 <= i < j < |s| ==> s[i].startTime <= s[j].startTime
  }

  lemma ValuesOfJoin(s: seq<Segment>, t: seq<Segment>)
    requires AllComplete(s) && AllComplete(t)
    ensures AllComplete(s + t) && Values(s + t) == Values(s) + Values(t)
  {
  }

  lemma Prepended(y: Segment, t: seq<Segment>)
    requires Distinct(t) && AllComplete(t) && StartsSorted(t)
    requires y.Valid() && y.IsComplete() && y !in t
    requires forall i :: 0 <= i < |t| ==> y.startTime <= t[i].startTime
    ensures Distinct([y] + t) && AllComplete([y] + t) && StartsSorted([y] + t)
    ensures AllComplete([y]) && Values([y] + t) == Values([y]) + Values(t)
  {
    ValuesOfJoin([y], t);
  }

  lemma Taken(s: seq<Segment>)
    requires s != [] && Distinct(s) && AllComplete(s)
    ensures Distinct(s[1..]) && AllComplete([s[0]]) && AllComplete(s[1..]) && s[0] !in s[1..]
    ensures StartsSorted(s) ==> StartsSorted(s[1..])
    ensures Values(s) == Values([s[0]]) + Values(s[1..])
  {
    assert s == [s[0]] + s[1..];
    ValuesOfJoin([s[0]], s[1..]);
  }

  ghost predicate Rearranged(ps: seq<CompletePacket>, qs: seq<CompletePacket>) {
    multiset(ps) == multiset(qs)
  }

  lemma RearrangedTogether(all: seq<CompletePacket>, one: seq<CompletePacket>, rest: seq<CompletePacket>,
                           rest': seq<CompletePacket>)
    requires Rearranged(all, one + rest) && Rearranged(rest, rest')
    ensures Rearranged(all, one + rest')
  {
  }

  lemma RearrangedBehind(y: seq<CompletePacket>, all: seq<CompletePacket>, x: seq<CompletePacket>,
                         rest: seq<CompletePacket>)
    requires Rearranged(all, x + rest)
    ensures Rearranged(y + all, x + (y + rest))
  {
  }

  function InsertByStart(s: seq<Segment>, x: Segment): (t: seq<Segment>)
    reads s, x
    ensures forall k :: 0 <= k < |t| ==> t[k] in s || t[k] == x
    decreases |s|
  {
    if s == [] || x.startTime <= s[0].startTime then [x] + s else [s[0]] + InsertByStart(s[1..], x)
  }

  lemma {:induction false} InsertByStartKeeps(s: seq<Segment>, x: Segment)
    requires Distinct(s) && AllComplete(s) && StartsSorted(s)
    requires x.Valid() && x.IsComplete() && x !in s
    ensures var t := InsertByStart(s, x);
            && Distinct(t) && AllComplete(t) && StartsSorted(t)
            && AllComplete([x]) && Rearranged(Values(t), Values([x]) + Values(s))
    decreases |s|
  {
    if s == [] || x.startTime <= s[0].startTime {
      Prepended(x, s);
    } else {
      var rest := InsertByStart(s[1..], x);
      Taken(s);
      FirstIsLeast(s);
      HeadOrTail(s);
      InsertByStartKeeps(s[1..], x);
      hide Distinct, StartsSorted, Rearranged;
      assert forall i :: 0 <= i < |rest| ==> rest[i] in s[1..] || rest[i] == x;
      Prepended(s[0], rest);
      RearrangedBehind(Values([s[0]]), Values(rest), Values([x]), Values(s[1..]));
    }
  }

  lemma FirstIsLeast(s: seq<Segment>)
    requires s != [] && StartsSorted(s)
    ensures forall y :: y in s[1..] ==> s[0].startTime <= y.startTime
  {
  }

  /** Sorts by start time.  What is relied on below leaves open how ties come out. */
  function SortByStart(s: seq<Segment>): (t: seq<Segment>)
    reads s
    ensures forall k :: 0 <= k < |t| ==> t[k] in s
    decreases |s|
  {
    if s == [] then [] else InsertByStart(SortByStart(s[1..]), s[0])
  }

  lemma {:induction false} SortByStartArranges(s: seq<Segment>)
    requires Distinct(s) && AllComplete(s)
    ensures var t := SortByStart(s);
            && Distinct(t) && AllComplete(t) && StartsSorted(t)
            && Rearranged(Values(t), Values(s))
    decreases |s|
  {
    if s != [] {
      Taken(s);
      SortByStartArranges(s[1..]);
      InsertByStartKeeps(SortByStart(s[1..]), s[0]);
      hide Distinct, StartsSorted, Rearranged;
      RearrangedTogether(Values(SortByStart(s)), Values([s[0]]), Values(SortByStart(s[1..])), Values(s[1..]));
    }
  }

  lemma HeadOrTail(s: seq<Segment>)
    ensures s != [] ==> forall y :: y in s <==> y in s[1..] || y == s[0]
  {
    if s != [] {
      assert s == [s[0]] + s[1..];
    }
  }

  /** Whether one segment continues another, computed the way the loop needs it. */
  method IsContiguous(last: Segment, next: Segment) returns (contiguous: bool)
    requires last.Valid() && last.IsComplete() && next.IsComplete()
    ensures contiguous == Contiguous(last.Value(), next.Value())
  {
    contiguous := false;
    var samplingPeriod := Period(last.samplingRate);
    var relativeDifference
      := Abs(last.samplingRate - next.samplingRate) / Max(last.samplingRate, next.samplingRate);
    if relativeDifference < 0.001 {
      var lastEnd := last.GetEndTime();
      var expectedStartTime := lastEnd.value + samplingPeriod;
      var tolerance := samplingPeriod / 2;
      contiguous := AbsInt(expectedStartTime - next.startTime) < tolerance;
    }
  }

  method AppendData(last: Segment, next: Segment)
    requires last.Valid() && last.IsComplete() && next.IsComplete()
    modifies last
    ensures last.Valid() && last.IsComplete()
    ensures last.Value() == Joined(old(last.Value()), old(next.Value()))
  {
    var data := last.data;
    data := data + next.data;
    var _ := last.SetData(data);
  }

  lemma MergeUnfolds(ps: seq<CompletePacket>, i: nat)
    requires i < |ps|
    ensures Merge(ps[..i + 1]) == MergeStep(Merge(ps[..i]), ps[i])
  {
    hide MergeStep;
    assert ps[..i + 1][..i] == ps[..i];
  }

  lemma MergeStepIs(before: seq<CompletePacket>, p: CompletePacket)
    ensures MergeStep(before, p)
            == if before != [] && Contiguous(before[|before| - 1], p)
               then before[..|before| - 1] + [Joined(before[|before| - 1], p)] else before + [p]
  {
    hide Contiguous, Joined;
  }

  /** One turn of the merging loop: joins the segment to the last one kept, or keeps it apart. */
  method MergeInto(merged: seq<Segment>, next: Segment) returns (merged': seq<Segment>)
    requires Distinct(merged) && AllComplete(merged)
    requires next.Valid() && next.IsComplete() && next !in merged
    modifies merged
    ensures Distinct(merged') && AllComplete(merged')
    ensures forall k :: 0 <= k < |merged'| ==> merged'[k] in merged || merged'[k] == next
    ensures Values(merged') == MergeStep(old(Values(merged)), old(next.Value()))
  {
    hide Contiguous, Joined, EndTime, Period, MergeStep;
    merged' := merged;
    var contiguous := false;
    if merged != [] {
      contiguous := IsContiguous(merged[|merged| - 1], next);
    }
    ghost var before, p := Values(merged), next.Value();
    MergeStepIs(before, p);
    if contiguous {
      var n := |merged| - 1;
      AppendData(merged[n], next);
      assert Values(merged) == before[..n] + [Joined(before[n], p)];
    } else {
      merged' := merged + [next];
      assert Values(merged') == before + [p];
    }
  }

  /** The merging loop: grows `merged`, appending to the data of its last segment when it can. */
  method MergeSorted(sorted: seq<Segment>) returns (merged: seq<Segment>)
    requires Distinct(sorted) && AllComplete(sorted) && StartsSorted(sorted)
    modifies sorted
    ensures Distinct(merged) && AllComplete(merged) && StartsSorted(merged)
    ensures forall k :: 0 <= k < |merged| ==> merged[k] in sorted
    ensures Values(merged) == Merge(old(Values(sorted)))
  {
    hide MergeStep, Merge, StartsSorted, Sorted;
    ghost var ps := Values(sorted);
    StartsOfValues(sorted);
    merged := [];
    MergeNothing();
    for i := 0 to |sorted|
      invariant forall k :: 0 <= k < |merged| ==> merged[k] in sorted
      invariant forall j, k :: 0 <= j < |merged| && i <= k < |sorted| ==> merged[j] != sorted[k]
      invariant Distinct(merged) && AllComplete(merged)
      invariant forall k :: i <= k < |sorted| ==>
                  sorted[k].Valid() && sorted[k].IsComplete() && sorted[k].Value() == ps[k]
      invariant Values(merged) == Merge(ps[..i])
    {
      MergeUnfolds(ps, i);
      merged := MergeInto(merged, sorted[i]);
    }
    assert ps[..|sorted|] == ps;
    MergeKeepsOrder(ps);
    StartsOfValues(merged);
  }

  lemma StartsOfValues(s: seq<Segment>)
    requires AllComplete(s)
    ensures StartsSorted(s) <==> Sorted(Values(s))
  {
    if Sorted(Values(s)) {
      forall i, j | 0 <= i < j < |s|
        ensures s[i].startTime <= s[j].startTime
      {
        assert Values(s)[i].start <= Values(s)[j].start;
      }
    }
  }

  lemma MergeNothing()
    ensures Merge([]) == []
  {
  }

  /** The validation loop. */
  method AreComplete(given: seq<Segment>) returns (complete: bool)
    requires AllValid(given)
    ensures complete <==> AllComplete(given)
  {
    for i := 0 to |given|
      invariant forall k :: 0 <= k < i ==> given[k].IsComplete()
    {
      if !(given[i].samplingRate > 0.0) || !given[i].hasStartTime || given[i].data == [] {
        assert !given[i].IsComplete();
        return false;
      }
    }
    return true;
  }

  method Arrange(given: seq<Segment>, merge: bool) returns (kept: seq<Segment>, ghost arranged: seq<CompletePacket>)
    requires Distinct(given) && AllComplete(given)
    modifies given
    ensures Distinct(kept) && AllComplete(kept) && StartsSorted(kept)
    ensures forall k :: 0 <= k < |kept| ==> kept[k] in given
    ensures Sorted(arranged) && Rearranged(arranged, old(Values(given)))
    ensures Values(kept) == if merge then Merge(arranged) else arranged
  {
    hide Merge;
    SortByStartArranges(given);
    kept := SortByStart(given);
    arranged := Values(kept);
    assert Sorted(arranged);
    assert forall k :: 0 <= k < |kept| ==> kept[k] in given;
    if merge {
      kept := MergeSorted(kept);
    }
  }

  class Waveform {
    var segments: seq<Segment>

    ghost predicate Valid()
      reads this, segments
    {
      && Distinct(segments)
      && AllComplete(segments)
      && StartsSorted(segments)
    }

    constructor ()
      ensures Valid() && segments == []
    {
      segments := [];
    }

    /**
     Takes over the given segments.  They are refused, all of them and unchanged, unless there
     are some and every one is complete; otherwise they are arranged by start time and, if
     asked, merged.  `arranged` names the arrangement for the specification.
     */
    method SetSegments(given: seq<Segment>, merge: bool) returns (r: Result<()>, ghost arranged: seq<CompletePacket>)
      requires Distinct(given) && AllValid(given)
      modifies this, given
      ensures r.Ok? <==> given != [] && old(AllComplete(given))
      ensures r.Throws? ==> r.exception == InvalidArgument && segments == old(segments)
                            && forall s :: s in given ==> unchanged(s)
      ensures r.Ok? ==>
                && Valid()
                && (forall k :: 0 <= k < |segments| ==> segments[k] in given)
                && (forall i, j :: 0 <= i < j < |segments| ==> segments[i].startTime <= segments[j].startTime)
                && Sorted(arranged) && Rearranged(arranged, old(Values(given)))
                && Values(segments) == if merge then Merge(arranged) else arranged
    {
      var complete := AreComplete(given);
      if given == [] || !complete {
        return Throws(InvalidArgument), [];
      }
      hide Sorted, Merge, StartsSorted, Distinct;
      segments, arranged := Arrange(given, merge);
      return Ok(()), arranged;
    }
  }
}
