/** Joining packets that continue one another, on values. */
module Merging {
  import opened Sequences
  import opened RealAlgebra
  import opened Segments

  type CompletePacket = p: Packet | Complete(p) witness Packet(0, 1.0, [0.0])

  function Max(x: real, y: real): real {
    if x < y then y else x
  }

  function AbsInt(n: int): nat {
    if n < 0 then -n else n
  }

  /** Rates within one part in a thousand of the greater of them. */
  predicate SameRate(x: real, y: real)
    requires 0.0 < x && 0.0 < y
  {
    Abs(x - y) / Max(x, y) < 0.001
  }

  /** The next packet starts where this one would have had its next sample, within half a period. */
  predicate Contiguous(last: CompletePacket, next: CompletePacket) {
    && SameRate(last.rate, next.rate)
    && AbsInt(EndTime(last) + Period(last.rate) - next.start) < Period(last.rate) / 2
  }

  /** The test in whole numbers: no rounding, and no division but the one that gives the period. */
  lemma ContiguousExactly(last: CompletePacket, next: CompletePacket)
    ensures Contiguous(last, next) <==>
              && 1000.0 * Abs(last.rate - next.rate) < Max(last.rate, next.rate)
              && 2 * AbsInt(next.start - (last.start + Period(last.rate) * |last.data|)) + 2 <= Period(last.rate)
  {
    SameRateExactly(last.rate, next.rate);
    var period, n := Period(last.rate), |last.data|;
    assert period * (n - 1) + period == period * n;
    hide Period, SameRate, Max, Abs;
  }

  lemma SameRateExactly(x: real, y: real)
    requires 0.0 < x && 0.0 < y
    ensures SameRate(x, y) <==> 1000.0 * Abs(x - y) < Max(x, y)
  {
    ThousandthPart(Abs(x - y), Max(x, y), Abs(x - y) / Max(x, y));
    hide Abs, Max;
  }

  lemma ThousandthPart(a: real, m: real, q: real)
    requires 0.0 < m && q * m == a
    ensures q < 0.001 <==> 1000.0 * a < m
  {
    if q < 0.001 {
      ProductIsPositive(0.001 - q, m);
    } else {
      ProductIsNonNegative(q - 0.001, m);
    }
  }

  /** A packet that starts within half a period of when the next sample is due is joined, allowing for rounding. */
  lemma PunctualIsContiguous(last: CompletePacket, next: CompletePacket)
    requires 1000.0 * Abs(last.rate - next.rate) < Max(last.rate, next.rate)
    requires Abs(next.start as real - Due(last, |last.data|)) + 0.5 * |last.data| as real + 1.25
             <= 0.5 * (1000000000.0 / last.rate)
    ensures Contiguous(last, next)
  {
    ContiguousExactly(last, next);
    DueNearby(last, |last.data|);
    PeriodIsNearest(last.rate);
    hide Contiguous, Period, Due, Max;
  }

  /** And one that is joined starts within half a period of it. */
  lemma ContiguousIsPunctual(last: CompletePacket, next: CompletePacket)
    requires Contiguous(last, next)
    ensures 1000.0 * Abs(last.rate - next.rate) < Max(last.rate, next.rate)
    ensures Abs(next.start as real - Due(last, |last.data|))
            < 0.5 * (1000000000.0 / last.rate) + 0.5 * |last.data| as real
  {
    ContiguousExactly(last, next);
    DueNearby(last, |last.data|);
    PeriodIsNearest(last.rate);
    hide Contiguous, Period, Due, Max;
  }

  function Joined(last: CompletePacket, next: CompletePacket): CompletePacket {
    last.(data := last.data + next.data)
  }

  function MergeStep(merged: seq<CompletePacket>, next: CompletePacket): seq<CompletePacket> {
    if merged != [] && Contiguous(merged[|merged| - 1], next)
    then merged[..|merged| - 1] + [Joined(merged[|merged| - 1], next)]
    else merged + [next]
  }

  /** One pass over packets in order, each joined to the last one kept or kept apart. */
  function Merge(ps: seq<CompletePacket>): seq<CompletePacket>
    decreases |ps|
  {
    if ps == [] then [] else MergeStep(Merge(ps[..|ps| - 1]), ps[|ps| - 1])
  }

  // ---------- The reference: greedy runs ----------

  function AllData(ps: seq<CompletePacket>): seq<real>
    decreases |ps|
  {
    if ps == [] then [] else AllData(ps[..|ps| - 1]) + ps[|ps| - 1].data
  }

  type Run = g: seq<CompletePacket> | g != [] witness [Packet(0, 1.0, [0.0])]

  /** A run joined up: the start and the rate of its first packet, the samples of all of them. */
  function Whole(g: Run): CompletePacket {
    DataIsThere(g);
    g[0].(data := AllData(g))
  }

  lemma {:induction false} DataIsThere(g: Run)
    ensures AllData(g) != []
  {
    assert g[|g| - 1].data != [];
  }

  function Wholes(gs: seq<Run>): (ps: seq<CompletePacket>)
    ensures |ps| == |gs| && forall i :: 0 <= i < |gs| ==> ps[i] == Whole(gs[i])
  {
    seq(|gs|, i requires 0 <= i < |gs| => Whole(gs[i]))
  }

  function Flatten(gs: seq<Run>): seq<CompletePacket>
    decreases |gs|
  {
    if gs == [] then [] else Flatten(gs[..|gs| - 1]) + gs[|gs| - 1]
  }

  /** Every packet of a run continues what the packets before it were joined into. */
  ghost predicate Unbroken(g: Run) {
    forall j :: 1 <= j < |g| ==> Contiguous(Whole(g[..j]), g[j])
  }

  /** Cut into runs, each unbroken, and none continued by the first packet of the next. */
  ghost predicate GreedyRuns(gs: seq<Run>, ps: seq<CompletePacket>) {
    && Flatten(gs) == ps
    && (forall i :: 0 <= i < |gs| ==> Unbroken(gs[i]))
    && (forall i :: 0 <= i < |gs| - 1 ==> !Contiguous(Whole(gs[i]), gs[i + 1][0]))
  }

  function RunsStep(gs: seq<Run>, next: CompletePacket): seq<Run> {
    if gs != [] && Contiguous(Whole(gs[|gs| - 1]), next)
    then gs[..|gs| - 1] + [gs[|gs| - 1] + [next]]
    else gs + [[next]]
  }

  function Runs(ps: seq<CompletePacket>): seq<Run>
    decreases |ps|
  {
    if ps == [] then [] else RunsStep(Runs(ps[..|ps| - 1]), ps[|ps| - 1])
  }

  lemma WholeExtends(g: Run, next: CompletePacket)
    ensures Whole(g + [next]) == Joined(Whole(g), next)
  {
    assert (g + [next])[..|g|] == g;
  }

  lemma WholeOfOne(p: CompletePacket)
    ensures Whole([p]) == p
  {
    assert AllData([p]) == AllData([]) + p.data;
  }

  lemma UnbrokenExtends(g: Run, next: CompletePacket)
    requires Unbroken(g) && Contiguous(Whole(g), next)
    ensures Unbroken(g + [next])
  {
    hide Contiguous;
    var g' := g + [next];
    forall j | 1 <= j < |g'|
      ensures Contiguous(Whole(g'[..j]), g'[j])
    {
      assert g'[..j] == g[..j];
      if j == |g| {
        assert g[..j] == g;
      }
    }
  }

  lemma JoinedStepIsGreedy(gs: seq<Run>, ps: seq<CompletePacket>, next: CompletePacket)
    requires GreedyRuns(gs, ps) && gs != [] && Contiguous(Whole(gs[|gs| - 1]), next)
    ensures GreedyRuns(RunsStep(gs, next), ps + [next])
    ensures Wholes(RunsStep(gs, next)) == MergeStep(Wholes(gs), next)
  {
    hide Contiguous, Whole, Joined;
    var n := |gs| - 1;
    var gs' := RunsStep(gs, next);
    UnbrokenExtends(gs[n], next);
    WholeExtends(gs[n], next);
    assert gs'[..n] == gs[..n];
    assert gs'[n][0] == gs[n][0];
  }

  lemma ApartStepIsGreedy(gs: seq<Run>, ps: seq<CompletePacket>, next: CompletePacket)
    requires GreedyRuns(gs, ps) && !(gs != [] && Contiguous(Whole(gs[|gs| - 1]), next))
    ensures GreedyRuns(RunsStep(gs, next), ps + [next])
    ensures Wholes(RunsStep(gs, next)) == MergeStep(Wholes(gs), next)
  {
    hide Contiguous, Whole, Joined;
    var gs' := RunsStep(gs, next);
    WholeOfOne(next);
    assert gs'[..|gs|] == gs && gs'[|gs|] == [next];
    assert Unbroken([next]);
  }

  /** The single pass finds greedy runs and keeps each of them whole. */
  lemma {:induction false} MergeKeepsGreedyRuns(ps: seq<CompletePacket>)
    ensures GreedyRuns(Runs(ps), ps)
    ensures Merge(ps) == Wholes(Runs(ps))
    decreases |ps|
  {
    hide Contiguous, Whole, Joined, RunsStep, MergeStep, GreedyRuns;
    if ps == [] {
      NoRuns();
    } else {
      var n := |ps| - 1;
      var gs := Runs(ps[..n]);
      MergeKeepsGreedyRuns(ps[..n]);
      if gs != [] && Contiguous(Whole(gs[|gs| - 1]), ps[n]) {
        JoinedStepIsGreedy(gs, ps[..n], ps[n]);
      } else {
        ApartStepIsGreedy(gs, ps[..n], ps[n]);
      }
      assert ps == ps[..n] + [ps[n]];
    }
  }

  lemma NoRuns()
    ensures GreedyRuns([], [])
  {
  }

  lemma FlattenIsNotEmpty(gs: seq<Run>)
    ensures Flatten(gs) == [] <==> gs == []
  {
  }

  /** Without its last packet, a greedy cut is a greedy cut of the packets before. */
  lemma GreedyRunsShrink(gs: seq<Run>, ps: seq<CompletePacket>) returns (gs': seq<Run>)
    requires GreedyRuns(gs, ps) && ps != []
    ensures GreedyRuns(gs', ps[..|ps| - 1]) && RunsStep(gs', ps[|ps| - 1]) == gs
  {
    hide Contiguous, Whole;
    var n, m := |gs| - 1, |ps| - 1;
    FlattenIsNotEmpty(gs);
    var last := gs[n];
    var k := |last| - 1;
    assert ps[m] == last[k];
    if k == 0 {
      gs' := gs[..n];
      assert ps[..m] == Flatten(gs');
      assert last == [ps[m]];
      assert gs == gs' + [last];
      if n > 0 {
        assert !Contiguous(Whole(gs[n - 1]), gs[n - 1 + 1][0]);
      }
    } else {
      gs' := gs[..n] + [last[..k]];
      assert gs'[..n] == gs[..n];
      assert ps[..m] == Flatten(gs');
      assert last[..k] + [last[k]] == last;
      forall j | 1 <= j < k
        ensures Contiguous(Whole(last[..k][..j]), last[..k][j])
      {
        assert last[..k][..j] == last[..j];
      }
      assert Contiguous(Whole(last[..k]), last[k]);
      assert gs == gs[..n] + [last];
    }
  }

  /** There is only one greedy cut, so the definition says all there is to say about merging. */
  lemma {:induction false} GreedyRunsAreUnique(gs: seq<Run>, ps: seq<CompletePacket>)
    requires GreedyRuns(gs, ps)
    ensures gs == Runs(ps)
    decreases |ps|
  {
    hide Contiguous, Whole, RunsStep;
    FlattenIsNotEmpty(gs);
    if ps != [] {
      var gs' := GreedyRunsShrink(gs, ps);
      GreedyRunsAreUnique(gs', ps[..|ps| - 1]);
    }
  }

  // ---------- What merging keeps ----------

  lemma {:induction false} AllDataOfJoin(ps: seq<CompletePacket>, qs: seq<CompletePacket>)
    ensures AllData(ps + qs) == AllData(ps) + AllData(qs)
    decreases |qs|
  {
    if qs == [] {
      assert ps + qs == ps;
    } else {
      var n := |qs| - 1;
      var whole := ps + qs;
      AllDataOfJoin(ps, qs[..n]);
      assert whole[..|whole| - 1] == ps + qs[..n] && whole[|whole| - 1] == qs[n];
      assert AllData(whole) == AllData(ps + qs[..n]) + qs[n].data;
    }
  }

  lemma {:induction false} WholesConserve(gs: seq<Run>)
    ensures AllData(Wholes(gs)) == AllData(Flatten(gs))
    decreases |gs|
  {
    if gs != [] {
      var n := |gs| - 1;
      WholesConserve(gs[..n]);
      assert Wholes(gs)[..n] == Wholes(gs[..n]);
      AllDataOfJoin(Flatten(gs[..n]), gs[n]);
    }
  }

  /** No sample is lost, made up or moved. */
  lemma {:induction false} MergeConservesData(ps: seq<CompletePacket>)
    ensures AllData(Merge(ps)) == AllData(ps)
  {
    MergeKeepsGreedyRuns(ps);
    WholesConserve(Runs(ps));
  }

  /** How many samples come before packet j of a run. */
  function Offset(g: seq<CompletePacket>, j: nat): nat
    requires j <= |g|
  {
    |AllData(g[..j])|
  }

  lemma {:induction false} DataAt(g: seq<CompletePacket>, j: nat, k: nat)
    requires j < |g| && k < |g[j].data|
    ensures Offset(g, 0) == 0 && Offset(g, j + 1) == Offset(g, j) + |g[j].data| <= |AllData(g)|
    ensures AllData(g)[Offset(g, j) + k] == g[j].data[k]
    decreases |g|
  {
    var n := |g| - 1;
    assert g[..j + 1][..j] == g[..j];
    if j == n {
      assert g[..j + 1] == g;
    } else {
      DataAt(g[..n], j, k);
      assert g[..n][..j] == g[..j] && g[..n][..j + 1] == g[..j + 1];
    }
  }

  /**
   What a merged segment is made of: the start and the rate of the first packet of its run, and
   every sample of every packet, each after all those of the packets before.
   */
  lemma MergedIsItsRun(ps: seq<CompletePacket>, i: nat, j: nat, k: nat)
    requires i < |Runs(ps)| && j < |Runs(ps)[i]| && k < |Runs(ps)[i][j].data|
    ensures |Merge(ps)| == |Runs(ps)|
    ensures var g, m := Runs(ps)[i], Merge(ps)[i];
            && m.start == g[0].start && m.rate == g[0].rate && |m.data| == Offset(g, |g|)
            && Offset(g, 0) == 0 && Offset(g, j + 1) == Offset(g, j) + |g[j].data| <= |m.data|
            && m.data[Offset(g, j) + k] == g[j].data[k]
  {
    hide Runs, Merge, GreedyRuns, Complete;
    MergeKeepsGreedyRuns(ps);
    DataAt(Runs(ps)[i], j, k);
    assert Runs(ps)[i][..|Runs(ps)[i]|] == Runs(ps)[i];
    hide AllData;
  }

  /** The time the joined segment gives the first sample of packet j of a run. */
  function Slot(g: Run, j: nat): int
    requires j < |g|
  {
    g[0].start + Period(g[0].rate) * |AllData(g[..j])|
  }

  /**
   Every packet joined into a segment has the rate of the segment's first packet to one part
   in a thousand, and its own time stamp is strictly less than half a period from the slot
   its first sample gets.  Neither bound grows with the number of packets joined.
   */
  lemma JoinedPacketsAreInPlace(ps: seq<CompletePacket>, i: nat, j: nat)
    requires i < |Runs(ps)| && 1 <= j < |Runs(ps)[i]|
    ensures var g := Runs(ps)[i];
            && SameRate(g[0].rate, g[j].rate)
            && 2 * AbsInt(g[j].start - Slot(g, j)) < Period(g[0].rate)
  {
    hide Contiguous, Whole, SameRate, Slot, Period;
    MergeKeepsGreedyRuns(ps);
    var g := Runs(ps)[i];
    assert Unbroken(g);
    assert Contiguous(Whole(g[..j]), g[j]);
    ContinuationIsInPlace(g, j);
  }

  /** On the unrounded grid of the segment's own rate, rounding adds at most half a nanosecond a sample. */
  lemma JoinedPacketsKeepTime(ps: seq<CompletePacket>, i: nat, j: nat)
    requires i < |Runs(ps)| && 1 <= j < |Runs(ps)[i]|
    ensures var g := Runs(ps)[i];
            Abs(g[j].start as real - Due(g[0], Offset(g, j)))
            < 0.5 * (1000000000.0 / g[0].rate) + 0.5 * Offset(g, j) as real
  {
    hide Contiguous, Due;
    MergeKeepsGreedyRuns(ps);
    var g := Runs(ps)[i];
    assert Unbroken(g);
    var before := Whole(g[..j]);
    assert Contiguous(before, g[j]);
    ContiguousIsPunctual(before, g[j]);
    assert Due(before, Offset(g, j)) == Due(g[0], Offset(g, j)) by {
      DueDependsOn(before, g[0], Offset(g, j));
    }
  }

  lemma DueDependsOn(p: Packet, q: Packet, k: nat)
    requires p.start == q.start && p.rate == q.rate && 0.0 < p.rate
    ensures Due(p, k) == Due(q, k)
  {
  }

  lemma ContinuationIsInPlace(g: Run, j: nat)
    requires 1 <= j < |g| && Contiguous(Whole(g[..j]), g[j])
    ensures SameRate(g[0].rate, g[j].rate)
    ensures 2 * AbsInt(g[j].start - Slot(g, j)) < Period(g[0].rate)
  {
    hide Period, SameRate;
    var period, n := Period(g[0].rate), |AllData(g[..j])|;
    assert EndTime(Whole(g[..j])) == g[0].start + period * (n - 1);
    assert period * (n - 1) + period == period * n;
  }

  /** No two neighbours of the result could still be joined. */
  lemma {:induction false} MergeIsMaximal(ps: seq<CompletePacket>, i: nat)
    requires i < |Merge(ps)| - 1
    ensures !Contiguous(Merge(ps)[i], Merge(ps)[i + 1])
  {
    MergeKeepsGreedyRuns(ps);
    var gs := Runs(ps);
    assert !Contiguous(Whole(gs[i]), gs[i + 1][0]);
    NextStartDecides(Whole(gs[i]), gs[i + 1][0], Whole(gs[i + 1]));
  }

  /** Whether a packet continues another depends on its start and rate alone. */
  lemma NextStartDecides(last: CompletePacket, next: CompletePacket, next': CompletePacket)
    requires next.start == next'.start && next.rate == next'.rate
    ensures Contiguous(last, next) <==> Contiguous(last, next')
  {
  }

  ghost predicate AllApart(ps: seq<CompletePacket>) {
    forall i :: 0 <= i < |ps| - 1 ==> !Contiguous(ps[i], ps[i + 1])
  }

  lemma AllApartShrinks(ps: seq<CompletePacket>)
    requires ps != []
    ensures var n := |ps| - 1;
            AllApart(ps) <==> AllApart(ps[..n]) && (n > 0 ==> !Contiguous(ps[n - 1], ps[n]))
  {
    hide Contiguous;
    var n := |ps| - 1;
    if AllApart(ps[..n]) {
      forall i | 0 <= i < n && (n > 0 ==> !Contiguous(ps[n - 1], ps[n]))
        ensures !Contiguous(ps[i], ps[i + 1])
      {
        if i < n - 1 {
          assert !Contiguous(ps[..n][i], ps[..n][i + 1]);
        }
      }
    }
    if AllApart(ps) && n > 0 {
      assert !Contiguous(ps[n - 1], ps[n - 1 + 1]);
    }
  }

  /** Merging leaves a sequence alone exactly when no two neighbours could be joined. */
  lemma {:induction false} MergeFixes(ps: seq<CompletePacket>)
    ensures Merge(ps) == ps <==> AllApart(ps)
    decreases |ps|
  {
    hide Contiguous, AllApart;
    if ps == [] {
      assert AllApart(ps) by { NothingToJoin(); }
    } else {
      var n := |ps| - 1;
      MergeFixes(ps[..n]);
      MergeNeverGrows(ps[..n]);
      AllApartShrinks(ps);
      assert ps == ps[..n] + [ps[n]];
      if Merge(ps) == ps {
        assert |Merge(ps[..n])| == n;
        assert Merge(ps[..n]) == ps[..n];
      }
    }
  }

  lemma NothingToJoin()
    ensures AllApart([])
  {
  }

  lemma {:induction false} MergeNeverGrows(ps: seq<CompletePacket>)
    ensures |Merge(ps)| <= |ps|
    decreases |ps|
  {
    if ps != [] {
      MergeNeverGrows(ps[..|ps| - 1]);
    }
  }

  /** A second pass in the same order changes nothing. */
  lemma MergeIsIdempotent(ps: seq<CompletePacket>)
    ensures Merge(Merge(ps)) == Merge(ps)
  {
    forall i | 0 <= i < |Merge(ps)| - 1
      ensures !Contiguous(Merge(ps)[i], Merge(ps)[i + 1])
    {
      MergeIsMaximal(ps, i);
    }
    MergeFixes(Merge(ps));
  }

  // ---------- Start times ----------

  ghost predicate Sorted(ps: seq<Packet>) {
    forall i, j :: 0 <= i < j < |ps| ==> ps[i].start <= ps[j].start
  }

  ghost predicate StrictlySorted(ps: seq<Packet>) {
    forall i, j :: 0 <= i < j < |ps| ==> ps[i].start < ps[j].start
  }

  /** Where among all the packets run i begins. */
  function Position(gs: seq<Run>, i: nat): nat
    requires i < |gs|
  {
    |Flatten(gs[..i])|
  }

  lemma {:induction false} RunsBeginInOrder(gs: seq<Run>, i: nat)
    requires i < |gs|
    ensures Position(gs, i) < |Flatten(gs)| && Flatten(gs)[Position(gs, i)] == gs[i][0]
    ensures i + 1 < |gs| ==> Position(gs, i) < Position(gs, i + 1)
    decreases |gs|
  {
    var n := |gs| - 1;
    if i < n {
      RunsBeginInOrder(gs[..n], i);
      assert gs[..n][..i] == gs[..i];
      assert gs[..i + 1][..i] == gs[..i];
    }
  }

  lemma {:induction false} PositionsGrow(gs: seq<Run>, i: nat, j: nat)
    requires i < j < |gs|
    ensures Position(gs, i) < Position(gs, j)
    decreases j
  {
    RunsBeginInOrder(gs, j - 1);
    if i < j - 1 {
      PositionsGrow(gs, i, j - 1);
    }
  }

  /** Start times stay in order, and stay distinct if they were. */
  lemma MergeKeepsOrder(ps: seq<CompletePacket>)
    ensures Sorted(ps) ==> Sorted(Merge(ps))
    ensures StrictlySorted(ps) ==> StrictlySorted(Merge(ps))
  {
    MergeKeepsGreedyRuns(ps);
    hide Position, GreedyRuns, Contiguous;
    var gs := Runs(ps);
    assert Flatten(gs) == ps by { GreedyRunsCover(gs, ps); }
    forall i, j | 0 <= i < j < |gs|
      ensures Sorted(ps) ==> Merge(ps)[i].start <= Merge(ps)[j].start
      ensures StrictlySorted(ps) ==> Merge(ps)[i].start < Merge(ps)[j].start
    {
      RunsBeginInOrder(gs, i);
      RunsBeginInOrder(gs, j);
      PositionsGrow(gs, i, j);
    }
  }

  lemma GreedyRunsCover(gs: seq<Run>, ps: seq<CompletePacket>)
    requires GreedyRuns(gs, ps)
    ensures Flatten(gs) == ps
  {
  }

  /** Packets that share a start time are equal. */
  ghost predicate TiesAreEqual(ps: seq<Packet>) {
    forall i, j :: 0 <= i < j < |ps| && ps[i].start == ps[j].start ==> ps[i] == ps[j]
  }

  /** qs is one of the ways the sort may arrange ps. */
  ghost predicate IsSortOf(qs: seq<Packet>, ps: seq<Packet>) {
    Sorted(qs) && multiset(qs) == multiset(ps)
  }

  lemma SameFirst(ps: seq<Packet>, qs: seq<Packet>)
    requires Sorted(ps) && TiesAreEqual(ps) && IsSortOf(qs, ps) && ps != []
    ensures qs != [] && qs[0] == ps[0]
  {
    var i := PlaceOf(qs, ps, 0);
    var j := PlaceOf(ps, qs, 0);
    assert ps[0].start <= ps[j].start == qs[0].start <= qs[i].start == ps[0].start;
    assert j == 0 || ps[0] == ps[j];
  }

  /** Sorting has only one outcome when ties are between equals, so above all when there are none. */
  lemma {:induction false} SortedOneWay(ps: seq<Packet>, qs: seq<Packet>)
    requires Sorted(ps) && TiesAreEqual(ps) && IsSortOf(qs, ps)
    ensures ps == qs
    decreases |ps|
  {
    hide Sorted, TiesAreEqual;
    if ps == [] {
      assert |multiset(qs)| == 0;
    } else {
      SameFirst(ps, qs);
      SameTails(ps, qs);
      TailsStaySorted(ps, qs);
      SortedOneWay(ps[1..], qs[1..]);
      assert ps == [ps[0]] + ps[1..] == qs;
    }
  }

  lemma SameTails<T>(s: seq<T>, t: seq<T>)
    requires s != [] && t != [] && s[0] == t[0] && multiset(s) == multiset(t)
    ensures multiset(s[1..]) == multiset(t[1..])
  {
    assert s == [s[0]] + s[1..] && t == [s[0]] + t[1..];
    assert multiset(s) == multiset{s[0]} + multiset(s[1..]);
    assert multiset(t) == multiset{s[0]} + multiset(t[1..]);
    assert multiset(s[1..]) == multiset(s) - multiset{s[0]};
  }

  lemma TailsStaySorted(ps: seq<Packet>, qs: seq<Packet>)
    requires ps != [] && qs != [] && Sorted(ps) && TiesAreEqual(ps) && Sorted(qs)
    ensures Sorted(ps[1..]) && TiesAreEqual(ps[1..]) && Sorted(qs[1..])
  {
  }

  lemma DistinctStartsDoNotTie(ps: seq<Packet>)
    requires StrictlySorted(ps)
    ensures Sorted(ps) && TiesAreEqual(ps)
  {
  }

  /** Merging that leaves as many packets as it was given leaves the packets it was given. */
  lemma {:induction false} SameLengthIsUnchanged(ps: seq<CompletePacket>)
    requires |Merge(ps)| == |ps|
    ensures Merge(ps) == ps
    decreases |ps|
  {
    if ps != [] {
      var n := |ps| - 1;
      MergeNeverGrows(ps[..n]);
      SameLengthIsUnchanged(ps[..n]);
      assert ps == ps[..n] + [ps[n]];
    }
  }

  /** Between two unequal packets of one start in order there are two unequal neighbours of that start. */
  lemma {:induction false} UnequalNeighbours(ps: seq<Packet>, i: nat, j: nat) returns (k: nat)
    requires Sorted(ps) && i < j < |ps| && ps[i].start == ps[j].start && ps[i] != ps[j]
    ensures k + 1 < |ps| && ps[k].start == ps[k + 1].start && ps[k] != ps[k + 1]
    decreases j - i
  {
    assert ps[i].start <= ps[i + 1].start;
    assert i + 1 == j || ps[i + 1].start <= ps[j].start;
    if ps[i] != ps[i + 1] {
      k := i;
    } else {
      k := UnequalNeighbours(ps, i + 1, j);
    }
  }

  lemma NeighboursSwap(ps: seq<CompletePacket>, k: nat) returns (qs: seq<CompletePacket>)
    requires Sorted(ps) && k + 1 < |ps| && ps[k].start == ps[k + 1].start && ps[k] != ps[k + 1]
    ensures IsSortOf(qs, ps) && qs != ps && |qs| == |ps|
  {
    qs := ps[..k] + [ps[k + 1], ps[k]] + ps[k + 2..];
    assert qs[k] == ps[k + 1];
    assert ps == ps[..k] + [ps[k], ps[k + 1]] + ps[k + 2..];
  }

  /**
   Sorting again and merging again changes nothing, however the sort breaks ties, exactly
   when merged segments that share a start time are equal.
   */
  lemma SortAndMergeIsIdempotent(ps: seq<CompletePacket>)
    requires Sorted(ps)
    ensures (forall qs: seq<CompletePacket> :: IsSortOf(qs, Merge(ps)) ==> Merge(qs) == Merge(ps))
            <==> TiesAreEqual(Merge(ps))
    ensures StrictlySorted(ps) ==> TiesAreEqual(Merge(ps))
  {
    hide Sorted, StrictlySorted, TiesAreEqual, Merge;
    MergeKeepsOrder(ps);
    var ms := Merge(ps);
    if StrictlySorted(ps) {
      DistinctStartsDoNotTie(ms);
    }
    if TiesAreEqual(ms) {
      forall qs: seq<CompletePacket> | IsSortOf(qs, ms)
        ensures Merge(qs) == ms
      {
        SortedOneWay(ms, qs);
        MergeIsIdempotent(ps);
      }
    } else {
      var qs := UnmergedSort(ms);
      assert IsSortOf(qs, ms) && Merge(qs) != ms;
    }
  }

  lemma UnmergedSort(ms: seq<CompletePacket>) returns (qs: seq<CompletePacket>)
    requires Sorted(ms) && !TiesAreEqual(ms)
    ensures IsSortOf(qs, ms) && Merge(qs) != ms
  {
    var i, j :| 0 <= i < j < |ms| && ms[i].start == ms[j].start && ms[i] != ms[j];
    var k := UnequalNeighbours(ms, i, j);
    qs := NeighboursSwap(ms, k);
    if Merge(qs) == ms {
      SameLengthIsUnchanged(qs);
      assert false;
    }
  }

  // ---------- When a second sort lets something be joined ----------

  /** A segment that another continues starts before it. */
  lemma ContiguousStartsLater(last: CompletePacket, next: CompletePacket)
    requires Contiguous(last, next)
    ensures last.start < next.start
  {
    var period, n := Period(last.rate), |last.data|;
    assert EndTime(last) + period == last.start + period * (n - 1) + period == last.start + period * n;
    PeriodsAddUp(period, n);
    hide SameRate, Period;
  }

  lemma PeriodsAddUp(period: nat, n: nat)
    requires 1 <= n
    ensures period <= period * n
  {
  }

  /** One of the segments continues another, with no start time strictly between theirs. */
  ghost predicate CouldMeet(ms: seq<CompletePacket>, i: nat, j: nat) {
    && i < |ms| && j < |ms| && Contiguous(ms[i], ms[j])
    && forall k :: 0 <= k < |ms| ==> !(ms[i].start < ms[k].start < ms[j].start)
  }

  lemma MetInSort(ms: seq<CompletePacket>, qs: seq<CompletePacket>) returns (i: nat, j: nat)
    requires IsSortOf(qs, ms) && !AllApart(qs)
    ensures CouldMeet(ms, i, j)
  {
    hide Contiguous;
    var l: nat :| l < |qs| - 1 && Contiguous(qs[l], qs[l + 1]);
    i := PlaceOf(ms, qs, l);
    j := PlaceOf(ms, qs, l + 1);
    forall k | 0 <= k < |ms|
      ensures !(ms[i].start < ms[k].start < ms[j].start)
    {
      var m := PlaceOf(qs, ms, k);
      assert m < l ==> qs[m].start <= qs[l].start;
      assert l + 1 < m ==> qs[l + 1].start <= qs[m].start;
    }
  }

  function Without<T>(s: seq<T>, i: nat): (t: seq<T>)
    requires i < |s|
    ensures |t| == |s| - 1
  {
    s[..i] + s[i + 1..]
  }

  lemma WithoutCounts<T>(s: seq<T>, i: nat)
    requires i < |s|
    ensures multiset(s) == multiset(Without(s, i)) + multiset{s[i]}
  {
    assert s == s[..i] + [s[i]] + s[i + 1..];
  }

  lemma WithoutStaysSorted(ps: seq<CompletePacket>, i: nat)
    requires Sorted(ps) && i < |ps|
    ensures Sorted(Without(ps, i))
    ensures forall k :: 0 <= k < |ps| - 1 ==> Without(ps, i)[k] == ps[if k < i then k else k + 1]
  {
  }

  /** Where in order the packets that start after a time begin. */
  lemma {:induction false} SplitByStart(ps: seq<Packet>, time: int) returns (k: nat)
    requires Sorted(ps)
    ensures k <= |ps|
    ensures forall i :: 0 <= i < k ==> ps[i].start <= time
    ensures forall i :: k <= i < |ps| ==> time < ps[i].start
    decreases |ps|
  {
    k := 0;
    if ps != [] {
      var n := |ps| - 1;
      if ps[n].start <= time {
        k := n + 1;
        assert forall i :: 0 <= i < n ==> ps[i].start <= ps[n].start;
      } else {
        k := SplitByStart(ps[..n], time);
        assert forall i :: 0 <= i < n ==> ps[..n][i] == ps[i];
      }
    }
  }

  lemma PairedStaysSorted(rest: seq<CompletePacket>, k: nat, p: CompletePacket, q: CompletePacket)
    requires Sorted(rest) && k <= |rest| && p.start <= q.start
    requires forall i :: 0 <= i < k ==> rest[i].start <= p.start
    requires forall i :: k <= i < |rest| ==> q.start <= rest[i].start
    ensures Sorted(rest[..k] + [p, q] + rest[k..])
  {
  }

  lemma PairedCounts<T>(rest: seq<T>, k: nat, p: T, q: T)
    requires k <= |rest|
    ensures multiset(rest[..k] + [p, q] + rest[k..]) == multiset(rest) + multiset{p} + multiset{q}
  {
    assert rest == rest[..k] + rest[k..];
  }

  /** The segments in order without two of them. */
  lemma WithoutBoth(ms: seq<CompletePacket>, i: nat, j: nat) returns (rest: seq<CompletePacket>)
    requires Sorted(ms) && i < |ms| && j < |ms| && i != j
    ensures Sorted(rest) && multiset(ms) == multiset(rest) + multiset{ms[i]} + multiset{ms[j]}
    ensures forall p :: p in rest ==> p in ms
  {
    hide Sorted, Without;
    var others := Without(ms, i);
    WithoutCounts(ms, i);
    WithoutStaysSorted(ms, i);
    var j' := if j < i then j else j - 1;
    assert others[j'] == ms[j];
    rest := Without(others, j');
    WithoutCounts(others, j');
    WithoutStaysSorted(others, j');
    forall p | p in rest
      ensures p in ms
    {
      assert p in multiset(rest);
    }
  }

  /** The arrangement in which two segments that could meet do. */
  lemma MeetsInSort(ms: seq<CompletePacket>, i: nat, j: nat) returns (qs: seq<CompletePacket>)
    requires Sorted(ms) && CouldMeet(ms, i, j)
    ensures IsSortOf(qs, ms) && !AllApart(qs)
  {
    hide Contiguous, Sorted;
    var p, q := ms[i], ms[j];
    ContiguousStartsLater(p, q);
    var rest := WithoutBoth(ms, i, j);
    var k := SplitByStart(rest, p.start);
    forall l | k <= l < |rest|
      ensures q.start <= rest[l].start
    {
      assert rest[l] in ms;
    }
    PairedStaysSorted(rest, k, p, q);
    PairedCounts(rest, k, p, q);
    qs := rest[..k] + [p, q] + rest[k..];
    assert qs[k] == p && qs[k + 1] == q;
  }

  /**
   A second sort can let something be joined exactly when one segment continues another and
   no segment starts strictly between the two: some order of the ties then puts them side by side.
   */
  lemma SecondSortJoins(ms: seq<CompletePacket>)
    requires Sorted(ms)
    ensures (exists qs: seq<CompletePacket> :: IsSortOf(qs, ms) && Merge(qs) != qs)
            <==> exists i: nat, j: nat :: CouldMeet(ms, i, j)
  {
    hide Sorted, AllApart, Merge, CouldMeet, IsSortOf;
    if qs: seq<CompletePacket> :| IsSortOf(qs, ms) && Merge(qs) != qs {
      MergeFixes(qs);
      var i, j := MetInSort(ms, qs);
    }
    if i: nat, j: nat :| CouldMeet(ms, i, j) {
      var qs := MeetsInSort(ms, i, j);
      MergeFixes(qs);
    }
  }

  const LONG: CompletePacket := Packet(0, 1.0, [1.0, 2.0])
  const SHORT: CompletePacket := Packet(0, 1.0, [3.0])
  const LATER: CompletePacket := Packet(2000000000, 1.0, [4.0])

  lemma TieFacts()
    ensures !Contiguous(LONG, SHORT) && !Contiguous(SHORT, LATER) && Contiguous(LONG, LATER)
  {
    assert SameRate(1.0, 1.0);
    assert Period(1.0) == 1000000000;
  }

  /**
   Without distinct start times it can: the two orders of a tie are both sorted, and the
   second one lets a packet join that the first one kept apart.
   */
  lemma TiesCanMerge()
    ensures Sorted([LONG, SHORT, LATER]) && Sorted([SHORT, LONG, LATER])
    ensures multiset([LONG, SHORT, LATER]) == multiset([SHORT, LONG, LATER])
    ensures Merge([LONG, SHORT, LATER]) == [LONG, SHORT, LATER]
    ensures Merge([SHORT, LONG, LATER]) != [SHORT, LONG, LATER]
  {
    hide Contiguous, Merge, AllApart;
    var first, second := [LONG, SHORT, LATER], [SHORT, LONG, LATER];
    TieFacts();
    MergeFixes(first);
    MergeFixes(second);
    ThreeApart(LONG, SHORT, LATER);
    ThreeApart(SHORT, LONG, LATER);
  }

  lemma ThreeApart(p: CompletePacket, q: CompletePacket, r: CompletePacket)
    ensures AllApart([p, q, r]) <==> !Contiguous(p, q) && !Contiguous(q, r)
  {
    hide Contiguous;
    var ps := [p, q, r];
    if AllApart(ps) {
      assert !Contiguous(ps[0], ps[0 + 1]) && !Contiguous(ps[1], ps[1 + 1]);
    }
  }
}
