# A verified model of the AQMS duty review backend

The backend serves recorded seismograms and an earthquake catalog to duty seismologists. It reads
waveform packets and events out of a database, joins the packets into continuous records, filters
them, writes them out compactly, and answers only callers who may see them. This project models the
parts of it that keep state or transform data, in Dafny, and proves what each of them promises.

Where the source updates an object in place, the model is a class with the same fields and methods,
and each method is proved against a function on values; the theorems are then about those functions.
Samples, rates and coefficients are `real`, times are integer nanoseconds or seconds, text is a
sequence of bytes or characters. An exception is the `Throws` of a `Result`.

**Filtering** (`Biquads`, `Cascades`, `Stability`, `Decay`, `Bandpass`, `Tones`, `Butterworth`, `Corners`,
`Filtering`). A second-order section
exists in two realisations with different internal state. They are two state machines related by one
linear map, kept by every sample and by steady-state priming, so they answer every signal alike; and
what they answer is the one sequence that satisfies the difference equation of the transfer function.
The cascade runs each sample through all sections, which equals running each section over the whole
signal, and its one-sweep priming equals priming each section with the first sample that reaches it.
By superposition, a primed cascade with one zero-sum numerator ignores any offset, so demeaning
before bandpassing changes nothing for any of the six designs. Every stable section has a quadratic
energy in the reflection coefficient c = a1/(1 + a2), Square(z2 - c·a2·z1) + (1 - c²)·z1²; unforced it
drops by an exact amount at each step and by a fixed factor below one over any two. From that, two
runs of a section on one input differ by a state whose energy never grows, and every design forgets
how it was started: at a geometric rate, in proportion to the signal's first sample, on every signal.

What the six tables pass is proved from the recursion up. A tone is the real part of a phasor that turns by a
fixed angle at every sample. Any stable cascade, however it starts, turns a tone into a tone of the same
frequency, up to a difference that fades geometrically, and the power of that tone is the input's times the
squared gain at that frequency. The squared gain of each table is u³/(u³ + v³) to one part in a hundred
million of full scale at every frequency, u the square of the angle's sine and v a multiple of (t - centre)²
for t = 1 - cosine: the third-order Butterworth bandpass. It is one half at 0.5 Hz and at the upper corner the
table was designed for (18, 38, 45, 90, 230 and 400 Hz), more in between, less outside, and never above one.

**Waveforms** (`Segments`, `Merging`, `Waveforms`, `SampleEncoding`). Packets are validated, sorted and
joined. The reference for joining is a cut of the packets into greedy runs, shown to be the only such
cut; from it come conservation, the half-period bound that does not accumulate, maximality and
idempotence. Periods, end times and the test for joining are each also stated against the unrounded grid of
the rate, on which a packet is joined if it is punctual and punctual if it is joined. Samples are then quantized and differenced; one decoder recovers them under all settings,
exactly or within half a level, and encoding the decoded signal again gives the identical reply. What is in a
reply is also stated in plain terms, entry by entry, for every setting.

**Step protocols** (`CatalogCaches`, `CatalogRequests`, `Clients`). The catalog cache is a state machine
over all interleavings of requests and database writes, with the database's whole history in the
state: every catalog answered is the state of some instant between the start of its request and its
answer. The database client is a script of faults met by each dial and each attempt: at most two
attempts, at most one commit, and a normal return means exactly one.

**Credentials and arrivals** (`Base64`, `Authorization`, `Authenticators`, `AuthNZ`, `AuthRuns`,
`Arrivals`). Decoding is the exact inverse of encoding, and a header parses to a user and a password
exactly when it is that credential on the wire. Runs of the whole service interleave logins, requests,
changes to accounts and the clock; every identity given is traced back to the very request or login
that earned it, to a password that was right when it was checked, and to the level it then read. It is
shown exactly when taking a level away takes hold within a time-to-live. The pairwise check on arrivals
accepts exactly the lists that satisfy a condition in which order plays no part.

Three promises turned out not to hold without a condition, and each condition is exact.

- A persistent client with a schema whose connect fails while the search path is being set can be
  left holding an open session, and the next call then runs an operation on it
  (`Clients.HalfConnectedClientRunsUnconfigured`). At every point of a run the next operation is certain
  of a configured session if and only if no event leaves the client like that (`Clients.RunsAreConfigured`).
- Merging twice in one order changes nothing. Sorting again in between may exchange merged segments that
  share a start time: the result is certain to be the same if and only if such segments are equal
  (`Merging.SortAndMergeIsIdempotent`), and the second sort can let something be joined if and only if one
  segment continues another with no start time strictly between theirs (`Merging.SecondSortJoins`).
- A level taken away stops being given within a time-to-live if and only if nothing in flight at that
  moment has read another level that it can still use (`AuthRuns.RevocationTakesHold`).

## Model

| member | source | states |
|---|---|---|
| Biquads.StepSimulation | src/signalProcessing/bandpass.cpp:147-154 | one sample keeps the transposed state the linear image of the direct form II state (z1, z2 from s1, s2), and the outputs are equal |
| Biquads.RunSimulation | src/signalProcessing/bandpass.cpp:258-272 | the relation and the equality hold along every signal of any length, from any direct form II state |
| Biquads.SteadySimulation | src/signalProcessing/bandpass.cpp:305-324 | priming either form for a constant gives related states and passes on the same constant, pole at DC included |
| Biquads.FormsAgree | src/signalProcessing/bandpass.cpp:129-334 | with a0 and b0 nonzero the two realisations of b/a answer every signal alike, from rest and primed |
| Biquads.FormsStayRelated | src/signalProcessing/bandpass.cpp:129-334 | after any signal, from rest or primed, the two states are still related by the one map |
| Biquads.RunIsTheResponse | src/signalProcessing/bandpass.cpp:132-154 | a sequence is the section's output if and only if it satisfies a0 y[n] + a1 y[n-1] + a2 y[n-2] = b0 x[n] + b1 x[n-1] + b2 x[n-2] at every sample, for any history before sample 0 |
| Biquads.SteadyIsTheFixedPoint | src/signalProcessing/bandpass.cpp:161-197 | with no pole at DC the primed state is the only one the constant leaves unchanged, the constant passed on is the output that goes with it, and it is the state a constant that has always been arriving leaves behind |
| Biquads.TransposedDirectFormII.Create | src/signalProcessing/bandpass.cpp:132-146 | throws exactly when a0 is zero; otherwise a section normalised to a0 = 1, at rest |
| Biquads.TransposedDirectFormII.Apply | src/signalProcessing/bandpass.cpp:148-154 | updates z1 and z2 in place as the transposed recursion says and returns the output |
| Biquads.TransposedDirectFormII.ResetInitialConditions | src/signalProcessing/bandpass.cpp:156-160 | puts the section back at rest |
| Biquads.TransposedDirectFormII.SetSteadyStateFor | src/signalProcessing/bandpass.cpp:179-197 | leaves the primed state, or rest when there is a pole at DC, and returns what is passed on |
| Biquads.DirectFormII.Create | src/signalProcessing/bandpass.cpp:217-255 | throws exactly when b0 or a0 is zero; otherwise a section with the gain divided out, at rest |
| Biquads.DirectFormII.Apply | src/signalProcessing/bandpass.cpp:258-272 | updates s0, s1 and s2 in place as the direct recursion says and returns the output |
| Biquads.DirectFormII.ResetInitialConditions | src/signalProcessing/bandpass.cpp:274-279 | puts the section back at rest |
| Biquads.DirectFormII.SetSteadyStateFor | src/signalProcessing/bandpass.cpp:305-324 | leaves the settled delays, or rest when there is a pole at DC, and returns what is passed on |
| Cascades.LoopsInterchange | src/signalProcessing/bandpass.cpp:358-403 | each sample through all sections equals each section over the whole signal in turn, from any states |
| Cascades.PassedIsFirstOutput | src/signalProcessing/bandpass.cpp:179-197 | what a primed section says it passes on is its first output for every constant if and only if it has no pole at DC or b0 is zero |
| Cascades.OneSweepPriming | src/signalProcessing/bandpass.cpp:367-381 | with no pole at DC, filtering after the one-sweep priming equals priming each section with the first sample of the signal that reaches it |
| Cascades.Superposition | src/signalProcessing/bandpass.cpp:358-366 | the cascade is linear in its states and its signal together, over signals of any length |
| Cascades.PrimingSuperposes | src/signalProcessing/bandpass.cpp:374-381 | the primed states are linear in the first sample, poles at DC included |
| Cascades.PrimedConstant | src/signalProcessing/bandpass.cpp:367-381 | a cascade primed for a constant passes it on, scaled by the gains at DC, from sample 0 |
| Cascades.ZeroSumStopsConstants | src/signalProcessing/bandpass.cpp:174-178 | one numerator that sums to zero, anywhere in the cascade, takes every constant to zero |
| Cascades.OffsetsDoNotMatter | src/signalProcessing/bandpass.cpp:374-403 | for a primed cascade with no pole at DC and a zero-sum numerator, taking any constant off the signal changes no output |
| Cascades.SecondOrderSections.Create | src/signalProcessing/bandpass.cpp:338-356 | throws exactly on lists of different lengths, no coefficients, or an a0 of zero; otherwise all sections normalised and at rest |
| Cascades.SecondOrderSections.FilterSample | src/signalProcessing/bandpass.cpp:358-366 | one sample through every section in order, every section's state moved on |
| Cascades.SecondOrderSections.SetSteadyState | src/signalProcessing/bandpass.cpp:374-381 | primes each section with what the one before it passes on |
| Cascades.SecondOrderSections.FilterEach | src/signalProcessing/bandpass.cpp:392-396 | the sample loop computes the cascade's run from the present states |
| Cascades.SecondOrderSections.ResetInitialConditions | src/signalProcessing/bandpass.cpp:398-401 | puts every section back at rest |
| Cascades.SecondOrderSections.Filter | src/signalProcessing/bandpass.cpp:385-403 | the run of the cascade, primed by the first sample if asked and if there is one, and every section at rest afterwards |
| Stability.EnergyDrop | src/signalProcessing/bandpass.cpp:148-154 | the quadratic energy of an unforced stable section drops in one step by exactly (1 - a2²) times a square |
| Stability.TwoStepsShrink | src/signalProcessing/bandpass.cpp:148-154 | over any two unforced steps it shrinks by a fixed factor that is below one |
| Stability.DifferenceEnergyNeverGrows | src/signalProcessing/bandpass.cpp:148-154 | two runs of a stable section on one unbounded input from different states: the energy of the state difference never grows, shrinks by the factor every two samples, and bounds the difference of the outputs for all time |
| Stability.TwoForcedSteps | src/signalProcessing/bandpass.cpp:148-154 | two forced steps keep the energy below a factor under one of what it was, plus a multiple of the squares of the two samples |
| Stability.StageVanishes | src/signalProcessing/bandpass.cpp:148-154 | a stable section turns an input that tends to zero into an output that tends to zero, from any state |
| Stability.FirstStageApart | src/signalProcessing/bandpass.cpp:358-366 | over unbounded signals a cascade is its first section followed by the cascade of the others |
| Stability.CascadeVanishes | src/signalProcessing/bandpass.cpp:358-366 | so does a cascade of any number of stable sections, from any states |
| Decay.EnergyDecaysBy | src/signalProcessing/bandpass.cpp:148-154 | under an input that decays geometrically the energy of a stable section does too, at any rate above its own and the input's, from a level that sustains it |
| Decay.StageDecays | src/signalProcessing/bandpass.cpp:148-154 | a stable section turns a geometrically decaying input into a geometrically decaying output, from any state |
| Decay.CascadeDecays | src/signalProcessing/bandpass.cpp:358-366 | so does a cascade of any number of stable sections, from any states |
| Decay.StartsAreForgotten | src/signalProcessing/bandpass.cpp:358-366 | whatever any stable cascade is fed, two starts come out apart by a difference that decays geometrically |
| Bandpass.DesignsAreSound | src/signalProcessing/bandpass.cpp:11-93 | all eighteen tabulated sections lie strictly inside the stability triangle and have no pole at DC, and the last two numerators of each design sum to zero |
| Bandpass.BandpassFilter | src/signalProcessing/bandpass.cpp:445-484 | an empty signal comes back whatever the rate, a rate without a design throws, and otherwise the answer is the design's run, primed or from rest; what that run passes at each frequency is `Corners.TonesSettle` and `Butterworth.DesignsAreButterworth` |
| Bandpass.GetValidSamplingRate | src/signalProcessing/bandpass.cpp:410-443 | each design's answer if and only if the rate lies strictly within the numbers of its own window, an invalid argument exactly for rates that are not positive, and no other answer |
| Bandpass.DemeanedHasZeroMean | src/signalProcessing/demean.cpp:7-24 | a demeaned signal sums to zero, keeps every difference between samples, and demeaning it again changes nothing |
| Bandpass.DemeaningIsAbsorbed | src/routes/waveformRoutes.hpp:95-98 | with steady-state start, for every design and every non-empty signal, bandpassing the demeaned signal equals bandpassing the signal |
| Bandpass.ConstantsVanish | src/signalProcessing/bandpass.cpp:174-178 | with steady-state start every design takes every constant to zero from its first sample |
| Bandpass.DifferenceIsRinging | src/signalProcessing/bandpass.cpp:385-403 | the primed and the resting answers to a signal differ, sample by sample, by what the primed states ring out with on silence |
| Bandpass.ApartIsScaledRinging | src/signalProcessing/bandpass.cpp:367-403 | the primed and the resting answers to a signal differ, sample by sample, by its first sample times one stream that depends on the design alone |
| Bandpass.TheStartIsForgotten | src/signalProcessing/bandpass.cpp:367-403 | for every design and bound there is one sample number past which, on every signal, the primed and the resting answers differ by at most the bound times the first sample |
| Bandpass.TheStartFadesGeometrically | src/signalProcessing/bandpass.cpp:367-403 | every design has a rate below one and a scale such that on every signal the square of that difference is at most the first sample's square times the scale times the rate to the power of half the sample number |
| Tones.StableDamps | src/signalProcessing/bandpass.cpp:148-154 | a section inside the stability triangle has no pole on the unit circle: its squared denominator is positive at every frequency |
| Tones.ThroughStrength | src/signalProcessing/bandpass.cpp:358-366 | the phasor a stable cascade settles in has the power of the input phasor times the product of the sections' squared numerators over that of their squared denominators, at every frequency |
| Tones.TonesComeThrough | src/signalProcessing/bandpass.cpp:358-366 | a stable cascade of any number of sections, from any states, answers a tone of any frequency, power and phase with a tone of that frequency, up to a difference that decays geometrically |
| Butterworth.DesignsAreButterworth | testing/data/signalProcessing/design.py:26-52 | at every frequency the squared gain of each tabulated design is within 1e-8 of u³/(u³ + v³), the response of the third-order Butterworth bandpass of its centre and sharpness |
| Corners.HalfPowerAtTheCorners | testing/data/signalProcessing/design.py:27-40 | at 0.5 Hz and at 18, 38, 45, 90, 230 or 400 Hz each design passes half of the power, to one part in a million |
| Corners.MoreInBetween | testing/data/signalProcessing/design.py:27-40 | each design passes more than half of the power at every frequency from 0.51 Hz to 1% below its upper corner |
| Corners.LessBelow | testing/data/signalProcessing/design.py:27-40 | and less than half at every frequency up to 0.49 Hz |
| Corners.LessBeyond | testing/data/signalProcessing/design.py:27-40 | and at every frequency from 1% above its upper corner to half the sampling rate |
| Corners.NothingIsAmplified | testing/data/signalProcessing/design.py:26-52 | at every frequency the squared gain of each design is at most 1 + 1e-8 |
| Corners.QuarterIsKept | testing/data/signalProcessing/design.py:26-52 | at a quarter of the sampling rate it is at least 0.998 |
| Corners.TonesSettle | src/signalProcessing/bandpass.cpp:445-484 | every design, primed or at rest, turns a tone of any frequency, power and phase into a tone of that frequency with the power times the design's squared gain, up to a difference that is below a scale times a power of a rate under one at every sample |
| Segments.PeriodIsNearest | src/database/aqms/segment.cpp:21-22 | the period in whole nanoseconds is within half of one of 1e9 divided by the rate, for every positive rate |
| Segments.EndTimeIsDue | src/database/aqms/segment.cpp:21-26 | the end time is when the last sample is due on the unrounded grid of the rate, off by at most half a nanosecond for every period before it, and the start itself for one sample |
| Segments.Segment.UpdateEndTime | src/database/aqms/segment.cpp:17-33 | makes the end time present exactly when start, rate and data are, and then the time that `Segments.EndTimeIsDue` places |
| Segments.Segment.Copy | src/database/aqms/segment.cpp:62-67 | a copy has the value of the original and its end time is coherent |
| Segments.Segment.SetSamplingRate | src/database/aqms/segment.cpp:81-94 | throws exactly on a non-positive rate and then changes nothing; keeps the end time coherent |
| Segments.Segment.SetStartTime | src/database/aqms/segment.cpp:111-116 | sets the start time and keeps the end time coherent |
| Segments.Segment.SetData | src/database/aqms/segment.cpp:139-164 | throws exactly on no data and then changes nothing; keeps the end time coherent |
| Segments.Segment.GetEndTime | src/database/aqms/segment.cpp:129-136 | answers exactly when start, rate and data are set, in whatever order they were, with the time that `Segments.EndTimeIsDue` places |
| Rounding.RoundExactly | src/database/aqms/segment.cpp:21-22 | which numbers round to n: those within half of it, halves away from zero on either side |
| Merging.ContiguousExactly | src/database/aqms/waveform.cpp:185-220 | a packet continues another if and only if a thousand times the difference of their rates is less than the greater, and twice its distance from the next whole-nanosecond slot plus two is at most the period |
| Merging.PunctualIsContiguous | src/database/aqms/waveform.cpp:167-179 | a packet of nearly the same rate that starts within half an unrounded period of when the next sample is due, less half a nanosecond for each sample and one and a quarter, is joined |
| Merging.ContiguousIsPunctual | src/database/aqms/waveform.cpp:167-179 | one that is joined starts within half an unrounded period of it, plus half a nanosecond for each sample |
| Merging.MergeKeepsGreedyRuns | src/database/aqms/waveform.cpp:181-234 | the single pass cuts the packets into consecutive runs, each joined whole with the start and rate of its first packet, and none continued by the next |
| Merging.GreedyRunsAreUnique | src/database/aqms/waveform.cpp:181-234 | there is only one such cut, so the definition determines the result |
| Merging.MergeConservesData | src/database/aqms/waveform.cpp:222-232 | the concatenated samples of the output are those of the packets in order: none lost, made up or moved |
| Merging.MergedIsItsRun | src/database/aqms/waveform.cpp:222-232 | a merged segment has the start and rate of its run's first packet and every sample of every packet, each at its place after those of the packets before |
| Merging.JoinedPacketsAreInPlace | src/database/aqms/waveform.cpp:189-220 | every packet joined into a segment is within one part in a thousand of the segment's rate and starts strictly less than half a period from the slot its first sample gets, over any number of packets joined |
| Merging.JoinedPacketsKeepTime | src/database/aqms/waveform.cpp:189-220 | every packet joined into a segment starts within half an unrounded period of when its first sample is due there, plus half a nanosecond for each sample before it |
| Merging.MergeIsMaximal | src/database/aqms/waveform.cpp:206-233 | no two neighbours of the result are contiguous under the tolerances on rate and time |
| Merging.MergeFixes | src/database/aqms/waveform.cpp:181-234 | merging leaves a sequence alone if and only if no two neighbours are contiguous |
| Merging.MergeIsIdempotent | src/database/aqms/waveform.cpp:181-234 | a second pass in the same order changes nothing |
| Merging.MergeKeepsOrder | src/database/aqms/waveform.cpp:150-234 | start times stay in order, and stay distinct if they were |
| Merging.SortedOneWay | src/database/aqms/waveform.cpp:150-154 | sorting has one outcome when segments that share a start time are equal, so above all when no two do |
| Merging.SortAndMergeIsIdempotent | src/database/aqms/waveform.cpp:150-236 | sorting the merged segments again in any way and merging again changes nothing if and only if those that share a start time are equal, as they are when the packets' starts are distinct |
| Merging.SecondSortJoins | src/database/aqms/waveform.cpp:150-236 | some sorted order of segments lets something be joined if and only if one of them continues another and no start time lies strictly between theirs |
| Merging.TiesCanMerge | src/database/aqms/waveform.cpp:150-154 | with a tie it can: two sorted orders of the same three packets, one fixed by merging and the other not |
| Waveforms.SortByStartArranges | src/database/aqms/waveform.cpp:150-154 | the sort gives a rearrangement of the same segments in order of start time |
| Waveforms.IsContiguous | src/database/aqms/waveform.cpp:185-221 | the computation in the loop decides contiguity, which `Merging.ContiguousExactly` states in whole numbers and `Merging.PunctualIsContiguous` and `Merging.ContiguousIsPunctual` against the unrounded grid |
| Waveforms.AppendData | src/database/aqms/waveform.cpp:222-228 | appends the next packet's samples to the last segment in place, the end time following |
| Waveforms.MergeInto | src/database/aqms/waveform.cpp:185-232 | one turn of the loop is one step of the reference merge |
| Waveforms.MergeSorted | src/database/aqms/waveform.cpp:181-234 | the whole loop, growing the list and rewriting its last segment, computes the reference merge and leaves the starts sorted |
| Waveforms.AreComplete | src/database/aqms/waveform.cpp:133-147 | the validation passes exactly when every segment has rate, start and data |
| Waveforms.Arrange | src/database/aqms/waveform.cpp:150-235 | sorting, and merging if asked, for any arrangement that is sorted |
| Waveforms.Waveform.SetSegments | src/database/aqms/waveform.cpp:127-237 | throws exactly when there are no segments or one is incomplete, changing nothing; otherwise holds a rearrangement of them in ascending order of start time, merged if asked |
| Filtering.FilteringKeepsTheGrid | src/routes/waveformRoutes.hpp:86-115 | filtering keeps start, rate, length and end time; the data is what arrived exactly when no design fits the rate, and otherwise the primed filter's answer, to which demeaning made no difference |
| Filtering.FilterSegment | src/routes/waveformRoutes.hpp:88-114 | a new segment, filtered or as it arrived and never in between; the given one is untouched |
| Filtering.FilterEach | src/routes/waveformRoutes.hpp:84-115 | every segment filtered, in order |
| Filtering.FilterWaveform | src/routes/waveformRoutes.hpp:76-121 | the same number of segments, each filtered; if segments that share a start time are equal, as when starts are distinct, segment i of the result is segment i filtered |
| SampleEncoding.MaximumIsAttained | src/database/aqms/serialize.cpp:169-173 | the largest absolute sample bounds all of them and is one of them |
| SampleEncoding.QuantizesExactly | src/database/aqms/serialize.cpp:163-177 | samples are quantized if and only if it was asked for, with a positive number of levels, and some sample is not zero |
| SampleEncoding.UnquantizedReply | src/database/aqms/serialize.cpp:192-240 | otherwise the gain is 1; the reply is differenced if and only if that was asked for and every sample is a whole number up to 9e15, every entry is then the difference from the sample before, or the sample if differencing was not asked for, as an integer; and if some sample is not such a number, every entry is the sample itself as a double |
| SampleEncoding.QuantizedReply | src/database/aqms/serialize.cpp:177-217 | quantized samples are scaled until the largest is exactly at the last level and rounded to the nearest whole number, halves away from zero; differenced exactly when asked for, and every entry is an integer |
| SampleEncoding.RunningIsLevels | src/database/aqms/serialize.cpp:204-232 | whatever was asked for, the decoder's running value at each entry is exactly the number that was to go out |
| SampleEncoding.DecoderRecovers | testing/database/serialize.cpp:541-558 | under all four settings the one decoder recovers every sample: exactly if not quantized, else within max/(2·levels) |
| SampleEncoding.EntriesFit | src/database/aqms/serialize.cpp:192-228 | every integer written lies within 1.8e16 of zero and so fits 64 bits |
| SampleEncoding.QuantizedFillsTheScale | src/database/aqms/serialize.cpp:177-205 | quantized samples are whole numbers in [-levels, levels], the largest at full scale, and differencing is never declined |
| SampleEncoding.EncodingIsIdempotent | src/database/aqms/serialize.cpp:159-240 | encoding what the decoder recovered gives the identical reply |
| SampleEncoding.WriteSamples | src/database/aqms/serialize.cpp:159-240 | the reply that `SampleEncoding.UnquantizedReply` and `SampleEncoding.QuantizedReply` characterise entry by entry, with its gain and its differencing flag |
| SampleEncoding.Quantize | src/database/aqms/serialize.cpp:163-190 | the gain from the data and the rounded samples, or a gain of 1 and the samples |
| SampleEncoding.LargestOf | src/database/aqms/serialize.cpp:169-173 | the loop finds the largest absolute sample |
| SampleEncoding.WriteDifferences | src/database/aqms/serialize.cpp:211-216 | the loop writes each number less the one before it |
| SampleEncoding.Decode | testing/database/serialize.cpp:543-558 | the loop computes the decoding |
| CatalogCaches.CatalogCache.Lookup | src/database/aqms/catalogCache.cpp:48-68 | answers exactly when there is an entry for this token no older than the limit, and counts one hit or one miss and nothing else |
| CatalogCaches.CatalogCache.Store | src/database/aqms/catalogCache.cpp:70-80 | replaces token, catalog, hash and time together, the counters untouched |
| CatalogCaches.CatalogCache.Clear | src/database/aqms/catalogCache.cpp:82-89 | holds no entry, the counters untouched |
| CatalogCaches.StoredIsReused | src/database/aqms/catalogCache.cpp:48-80 | after a request that stored, the next is answered with the very catalog stored if and only if it comes with the same token no later than the maximum age after the store, whether or not the database could be asked again; otherwise afresh or not at all; hits and misses count each case |
| CatalogCaches.NothingIsReused | src/database/aqms/catalogCache.cpp:42-89 | a new cache and a cleared one answer nothing themselves, and the maximum age is five minutes unless a positive one is given |
| CatalogCaches.GetCachedCatalog | src/routes/eventRoutes.hpp:38-71 | what one request nobody interrupts answers and leaves in the cache, for every failure of its two queries and with or without a cache |
| CatalogRequests.HitIsCurrent | src/routes/eventRoutes.hpp:43-51 | a hit is the watched state of an instant no earlier than the request's own reading of the token |
| CatalogRequests.StepKeepsInv | src/routes/eventRoutes.hpp:24-71 | every step of every request, write, tick and clear keeps: a held entry was built no earlier than its token was read, and is the state of that instant |
| CatalogRequests.RunKeepsInv | src/routes/eventRoutes.hpp:24-71 | so does every run |
| CatalogRequests.EveryAnswerIsCurrent | src/routes/eventRoutes.hpp:24-71 | in every interleaving every catalog handed out is the watched state of an instant between the start of its request and its answer, and carries the hash of that very catalog |
| CatalogRequests.EveryLookupIsCounted | src/database/aqms/catalogCache.cpp:52-66 | over every run, whatever the tokens, hits and misses add up to the lookups made |
| CatalogRequests.TokenReadAfterwardsGoesStale | src/routes/eventRoutes.hpp:28-31 | were the token read after building, then from any world and for any write in between, the next request is answered with a catalog held at no instant between its start and its answer, though tokens still identify the state |
| CatalogRequests.AloneIsUninterrupted | src/routes/eventRoutes.hpp:38-71 | the sequential request is one way through the interleaved steps, with the same answer and the same cache |
| Clients.RetriedOnceCommittedOnce | src/database/client.cpp:179-233 | over every fault schedule: at most two attempts and one commit; a normal return means exactly one, by the last attempt, whose rows are what was captured; an attempt in doubt is the last and is reported so; any other exception means no commit |
| Clients.AttemptsMade | src/database/client.cpp:205-232 | the result and the captured rows of a call that makes no attempt, one, or two; `Clients.RetriesExactly` says which |
| Clients.RetriesExactly | src/database/client.cpp:205-232 | no attempt is made if and only if there is no open session and none can be dialled; a second is made if and only if the first broke its connection and another can be dialled |
| Clients.DialsExactly | src/database/client.cpp:46-74 | dialling succeeds if and only if the database connects and a search path, where there is one, can be set, and then the session is open and configured; a failure leaves an open session only when it was the search path that failed |
| Clients.OutcomesAre | src/database/client.cpp:206-227 | which attempts return, which break their connection, which are in doubt, and which take effect on the server |
| Clients.CallerIsLeftWith | src/database/client.cpp:179-233 | listing users that throws leaves the captured rows as they were; a scalar query that returns has one row; the rows are those of the last attempt; a persistent client that returned holds an open session, and one in doubt only if it still looks open |
| Clients.OnDemandHoldsNothing | src/database/client.cpp:185-203 | however the call ends, an on-demand client holds no connection after it |
| Clients.EventsLeave | src/database/client.cpp:46-93 | what connecting, disconnecting and a drop leave of the session, and that no event changes the policy or the schema |
| Clients.EventKeepsReady | src/database/client.cpp:46-74 | from a ready client every attempt of a connect, disconnect, drop or execute is made on a session whose search path was set after it opened; the client stays ready if and only if the event does not leave it half connected |
| Clients.NextExecuteIsConfigured | src/database/client.cpp:102-115 | every attempt of the next execute is on a configured session, whatever it meets, if and only if the event before it did not leave the client half connected |
| Clients.RunsAreConfigured | src/database/client.cpp:46-232 | at every point of a run an execute is certain of sessions whose search path was set, whatever it meets, if and only if the run never leaves the client half connected; then every attempt of the run is on one |
| Clients.HalfConnectedClientRunsUnconfigured | src/database/client.cpp:59-72 | a run that is: the second call of a persistent client commits on a session whose search path was never set |
| Clients.Operation.RunListUsers | src/database/drp/userStore.cpp:126-155 | accumulates into a local and assigns only once the commit has gone through |
| Clients.Operation.RunScalar | include/aqmsDutyReviewBackend/database/client.hpp:128-142 | assigns the one row before the commit, and throws on any other number of rows |
| Clients.Client.Create | src/database/client.cpp:133-143 | a persistent client dials at once and is not built if that throws; an on-demand one holds nothing; either has the policy and schema asked for |
| Clients.Client.ConnectUnlocked | src/database/client.cpp:46-74 | drops any session, dials, and sets the search path if there is a schema; each way it can fail |
| Clients.Client.DisconnectUnlocked | src/database/client.cpp:77-93 | holds no session |
| Clients.Client.EnsureConnectedUnlocked | src/database/client.cpp:102-115 | dials exactly when there is no session that looks open |
| Clients.Client.ExecuteHolding | src/database/client.cpp:205-232 | attempt, and one reconnect and second attempt after a broken connection only; how many, and when, is `Clients.RetriesExactly`, and how it ends is `Clients.AttemptsMade` |
| Clients.Client.Execute | src/database/client.cpp:179-233 | the same with the guard that closes an on-demand client's connection on every way out, as `Clients.CallerIsLeftWith` and `Clients.OnDemandHoldsNothing` say |
| Clients.Client.ListUsers | src/database/drp/userStore.cpp:120-156 | the rows of one call of execute, none from an attempt that was repeated |
| Base64.GroupIsItsBits | src/auth/authorization.cpp:51-72 | the letters of a group stand for its 24 bits, six at a time from the top, and padding for those that carry none (section 4 of RFC 4648) |
| Base64.AlphabetIs | src/auth/authorization.cpp:51-72 | the letters are capitals, small letters, digits, plus and slash, in order (table 1 of RFC 4648) |
| Base64.ExamplesOfTheStandard | src/auth/authorization.cpp:51-72 | six of the examples of section 10 of RFC 4648 encode as printed there |
| Base64.DecodesEncoded | src/auth/authorization.cpp:51-72 | decoding undoes encoding on all data (section 4 of RFC 4648) |
| Base64.EncodesDecoded | src/auth/authorization.cpp:51-72 | whatever decodes is the canonical encoding of what it decodes to (section 3.5 of RFC 4648), and is no longer than three bytes for four letters |
| Base64.DecodeInvertsEncode | src/auth/authorization.cpp:51-72 | a text decodes to data if and only if the data is not empty and the text is its encoding |
| Base64.DecodeBase64 | src/auth/authorization.cpp:51-72 | filling the buffer of (n/4 + 1)·3 bytes never runs past it and gives exactly the decoding |
| Authorization.BasicRoundTrip | src/auth/authorization.cpp:83-138 | a header parses to a user and a password if and only if it is, up to blanks, any casing of Basic, a separator, and the base64 of user:password with a non-empty user without a colon (section 2 of RFC 7617) |
| Authorization.BearerRoundTrip | src/auth/authorization.cpp:96-106 | a header parses to a token if and only if it carries that token, trimmed and not empty, after any casing of Bearer |
| Authorization.StatusTellsCredential | src/auth/authorization.cpp:83-138 | a credential comes with the status Valid and no other, and Absent means nothing but blanks |
| Authorization.StatusOfNamed | src/auth/authorization.cpp:83-138 | a header that is, up to blanks, a scheme, a separator and a payload has an unsupported scheme if and only if it names neither Basic nor Bearer in any casing, and is malformed if and only if it names Basic and the payload is not the base64 of user:password |
| Authorization.StatusOfUnnamed | src/auth/authorization.cpp:83-95 | a header that is no scheme, separator and payload is malformed, unless it is all blank and so absent |
| Authorization.CharactersAre | src/auth/authorization.cpp:20-44 | capitals lose their case and nothing else changes; space, tab, return and newline are the blanks |
| Authorization.TrimSplits | src/auth/authorization.cpp:20-27 | what trimming takes off either end is blank, and what it leaves neither begins nor ends with a blank |
| Authorization.TrimOf | src/auth/authorization.cpp:20-27 | any blanks around a trimmed text are all that trimming takes off |
| Authorization.ParseAuthorizationHeader | src/auth/authorization.cpp:83-138 | the early-return parser computes the parse, decoding through the buffer |
| Authenticators.NameRoundTrip | src/auth/authenticator.cpp:39-89 | the name of a level, in any casing, reads back as that level |
| Authenticators.NamesAre | src/auth/authenticator.cpp:39-89 | how each level is written, and all the spellings, in any casing, that read as it; every other text grants nothing |
| Authenticators.SatisfiesIsInclusion | src/auth/authenticator.cpp:90-122 | one level satisfies another if and only if that other is not none and all it grants is granted by the first |
| Authenticators.LevelsAreOrdered | src/auth/authenticator.cpp:90-122 | the whole relation: which levels are enough for which, and that nothing is enough for none |
| AuthNZ.VouchedIsRanked | src/auth/authNZ.cpp:277-293 | a request that shows a user's own password, or a good token of theirs where tokens are taken, is allowed as them if their level is enough and forbidden if not, whatever level is asked for |
| AuthNZ.PasswordHasItsLevel | src/auth/database.cpp:191-200 | a request showing the password of a user whose account names a level, in any casing, when it is read is allowed as them at that level if it is enough and forbidden if not; forbidden if the account is gone by then |
| AuthNZ.TokenHasItsLevel | src/auth/jsonWebToken.cpp:103-184 | a request with a good token, where tokens are taken, is allowed at the level whose name was signed into it if that is enough and forbidden if not |
| AuthNZ.AllowedExactly | src/auth/authNZ.cpp:207-306 | on the bytes of the header: a request is allowed as somebody if and only if it carries that user's own password and no backend failed, or a good token of theirs where tokens are taken, and the level is enough |
| AuthNZ.IdentityMeansAllowed | src/auth/authNZ.cpp:156-204 | an identity is there exactly when the verdict is Allowed; the status is 200, 400, 401, 403 or 500, each exactly for its verdicts; and there is a challenge exactly with a 401, for the password exactly when the route insists on it |
| AuthNZ.ForbiddenExactly | src/auth/authNZ.cpp:277-288 | Forbidden if and only if the request is genuinely somebody's whose level is too low; the same request is allowed, as them, on a route that asks for just their level, unless that is none |
| AuthNZ.RefusalsTellWhy | src/auth/authNZ.cpp:220-276 | each other refusal if and only if its cause: a backend failing for a password, the second read only once the password was right; a wrong password or a token that is not good; a header that cannot be read; no credential that this route takes |
| AuthNZ.TokenSaysItsClaims | src/auth/jsonWebToken.cpp:70-98 | a token minted for a user and a level reads back as that user and that level |
| AuthNZ.Authority.AuthenticateBasic | src/auth/database.cpp:167-187 | an empty user throws, a fault is a server error, and otherwise the password is right or rejected |
| AuthNZ.Authority.GetPermissions | src/auth/database.cpp:191-200 | the level whose name, in any casing, the account holds; none for an unknown user; or an exception |
| AuthNZ.Authority.CreateToken | src/auth/jsonWebToken.cpp:70-98 | an empty user throws; otherwise one more token verifies, for these claims, until a time-to-live from now |
| AuthNZ.Authority.Verify | src/auth/jsonWebToken.cpp:103-184 | the claims of a signed token that has not expired and names somebody, and a rejection otherwise |
| AuthNZ.Authority.Login | src/auth/authNZ.cpp:75-100 | a token for a right password, at the level read after it was checked, and nothing signed otherwise |
| AuthNZ.Authority.AuthenticatePassword | src/auth/authNZ.cpp:103-131 | the claims for a right password and for no other |
| AuthNZ.Authority.Authorize | src/auth/authNZ.cpp:207-306 | the verdict, through parsing, refusing, authenticating and ranking in the source's order |
| AuthRuns.WasRead | src/auth/authNZ.cpp:87-90 | in every run, a job that has its claims began with the right password and read its level while in flight |
| AuthRuns.WasSigned | src/auth/jsonWebToken.cpp:70-98 | every token that verifies was signed by a login, for its user, at the level it read, and expires a time-to-live after it was signed |
| AuthRuns.EveryVerdictIsAuthorized | src/auth/authNZ.cpp:207-306 | every verdict of every interleaving is the one authorize computes for the request that the same job began with, on the users as they were when its password was checked and when that job read its level |
| AuthRuns.LoginAlone | src/auth/authNZ.cpp:75-100 | a login that nothing interrupts ends as the sequential call does: its answer, and a token signed exactly when the password was right and no read failed |
| AuthRuns.RequestAlone | src/auth/authNZ.cpp:207-306 | a request that nothing interrupts is answered with the verdict of the sequential call and changes nothing |
| AuthRuns.EveryIdentityIsEarned | src/auth/authNZ.cpp:207-306 | in every run an identity is given exactly with Allowed, at a level the route accepts, to the request of the job that earned it: by the user's own password on that request or, only where tokens are taken, by an earlier login within the time-to-live at the level that login read |
| AuthRuns.EveryIssuedTokenIsEarned | src/auth/authNZ.cpp:75-100 | the token a login is answered with was signed by that same login, for the user whose password it showed, at the level it read, until a time-to-live later |
| AuthRuns.RevocationTakesHold | src/auth/jsonWebToken.cpp:70-80 | with the positive time-to-live that options must have, from the end of any run: however it goes on with a user's level unchanged, every identity given for them a time-to-live later is at that level, if and only if no job has read another level for them that it can still use |
| AuthRuns.StaleJobOutlives | src/auth/authNZ.cpp:87-91 | from any run with such a job there is a way on, with the level unchanged, in which the old level is still given a time-to-live later |
| AuthRuns.SignedTokensAreHonoured | src/auth/jsonWebToken.cpp:103-184 | until its time-to-live is over a token is honoured with the claims it was signed for, and forbidden exactly where its level is too low, whatever has happened to the account |
| Arrivals.AcceptanceIgnoresOrder | src/database/aqms/origin.cpp:343-408 | whether a list is acceptable is the same for every rearrangement of it, so the way equal times are sorted cannot matter |
| Arrivals.AcceptableExactly | src/database/aqms/origin.cpp:318-408 | a list is acceptable if and only if it is not empty, every arrival has time, stream, phase and review status, and any two on one stream are of different phases, the P not the later |
| Arrivals.SortByTime | src/database/aqms/origin.cpp:343-347 | a rearrangement in order of time, ties left open |
| Arrivals.CheckPairs | src/database/aqms/origin.cpp:348-408 | the nested loops pass exactly the lists with no repeated stream and phase and no P after an S on a stream |
| Arrivals.Origin.SetArrivals | src/database/aqms/origin.cpp:318-410 | accepts exactly the acceptable lists and stores them sorted by time; otherwise throws and keeps the arrivals it had |
| Arrivals.StreamsFromArrivals | src/routes/waveformRoutes.hpp:34-60 | exactly the streams that occur, each once, in the order of their first arrivals |
| Arrivals.OnlyOneOrder | src/routes/waveformRoutes.hpp:31-33 | there is only one such list |
| Arrivals.OneOrTwoPerStream | src/routes/waveformRoutes.hpp:31-33 | accepted arrivals number n on k streams with 1 ≤ k ≤ n ≤ 2k |

## Left out

- SampleEncoding.DecoderRecovers: is a statement about exact arithmetic; near 9e15 the difference of two doubles can exceed 2^53 and lose its last bit.
- Filtering.FilterWaveform: says only that the segments are a rearrangement when two unequal ones share a start time, because the result is sorted again.
- CatalogRequests.EveryAnswerIsCurrent: is about the state the freshness token watches, given that a token identifies that state and never recurs for another; freshness of `origin.rflag`, which the token does not watch, is not claimed, and a late store can follow a clear.
- AuthNZ.Authority.Verify: rejects a token at the very second it expires, as section 4.1.4 of RFC 7519 says; the issuer and the algorithm are those of this authority, and jwt-cpp itself is not part of this model.
- Corners.HalfPowerAtTheCorners: a frequency's cosine enters as any number between all the partial sums of the cosine's series that fall short and all that exceed, with pi to ten places; that the cosine itself lies there is analysis and is not proved here.
- IEEE rounding, overflow, infinities and NaN: samples, rates and coefficients are `real`.
- Widths of integers: nanoseconds, counters and sizes are unbounded; only the entries of the encoding are shown to fit 64 bits.
- Sections, segments and arrivals are held by value in the source's vectors; here sections and segments are distinct objects in a sequence, and arrivals are values.
- The order std::sort gives equal elements: the results that rest on sorting hold for every sorted rearrangement.
- Building the catalog is one read of the database at one instant; the queries behind it are not part of this model.
- libsodium: a password matches its own hash and no other, re-hashing at login keeps the password, and a provisional account past its deadline counts as removed; base64 decoding is written from the standard.
- Signatures are ideal: a token verifies only if this authority signed it, and one text never stands for two payloads; a failure to sign is a fault of the level read.
- The reason text of a verdict, which is for the log only.
- createToken without a level, which no route calls; `AuthNZ.ClaimsOf` gives such a token no permissions.
- executeOptionalScalar, which differs from executeScalar only in the type of its one column.
- Stream identifiers on waveforms, which setSegments and filterWaveform carry along unread.
- SQL, libpqxx, Crow, JSON values, logging, telemetry, ini files, keys and the command line.
- The legacy reader in src/database/aqms/aqms.cpp, plain getters and setters, enum-to-string tables, longitude folding, metrics and route registration, which would add only easy members.
