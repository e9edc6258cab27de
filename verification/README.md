# AnalysisApp: a verified model

AnalysisApp identifies radio signals. Detections arrive from a message broker, are deduplicated and
queued, and are taken by two workers. A worker classifies a detection from the samples embedded in it,
or borrows a receiver through a request/response channel, collects samples over UDP and analyses those.
Results are ranked, cached for demodulation commands, and written into a table of known signals.

The model has three parts.

* **The service.** `TaskChannel` is the single-slot correlation protocol, `UdpReceiver` the packet
  format and the receive loop, `Collector` one borrowing of the receiver, `AnalysisService` the
  cooldown, the queue, the workers, `stop()` and the result cache, `SignalTable` the three-step table
  write, and `Processing` what a worker does with one detection. The classes mirror the program's
  critical sections; each is proved equal to a step function. `TaskChannel` and `AnalysisService` then
  let those steps interleave freely, with every reply order, time-out and clock reading, and the
  theorems hold for every run. `SignalTable` does the same for every sequence of writes.
* **The detectors.** `Cumulants`, `ChirpRegression`, `CyclicPrefix`, `Spectrum`, `Envelope`,
  `PhaseStatistics` and `Burst` are the loops of the feature extractor, proved against sums over
  sequences (`RealSums`, `ComplexNumbers`), followed by the inequalities the features rest on.
  `Classifier` is the decision tree, and what its labels mean for extracted blocks; `Extraction` puts the
  parts together.
* **Packing and ranking.** `TensorPacking` and `BatchInference` are the model input buffers, softmax and
  the batch form; `SignatureRanking` and `TopHypotheses` the protocol scores and the best three.

Arithmetic is exact: every theorem about numbers is over the reals, and says nothing about the rounding
of `float` and `double`. `sqrt`, `exp`, `arg`, pi, the logarithms, the spectrum, the network's answers, the library
sort, the clock, the sockets and the broker are arguments, known only by the laws stated where they are
required (`RealFunctions`, `Angles`).

Where the program does not do what its comments say, the model follows the code:

* a detection dropped on a full queue is stamped, so its bucket stays silent for a whole cooldown, although
  the comment says it will be picked up on the next sweep (`AnalysisService.DropIsNotPickedUp` is a run;
  `AnalysisService.LastStampDecides` says exactly when the bucket is queued again);
* `stop()` is documented to drain the queue but leaves it, apart from one detection per waiting worker
  (`AnalysisService.StopLeavesWork` is a run; `AnalysisService.StopDrainsExactlyWhen` gives the condition);
* `classifyBatch` is documented to process at most `max_batch` signals but reads the limit nowhere and
  answers all of them;
* the tree is meant to name ideal BPSK and QPSK, but it decides between analog and digital first, and their
  phases and frequency steps deviate so much that it calls them FM or PM, unless the frequency deviation is
  exactly a tenth of the bandwidth, or, for BPSK, is less and hardly any sample has the rarer sign
  (`Classifier.IdealBpskLabel`, `Classifier.IdealQpskLabel`, `Classifier.FlippingBpskIsFm`). The QPSK rule itself expects `c40` near -2 where QPSK has `c42 = -1`, and
  constant modulus forces `c40 >= c42` (`Classifier.QpskLabelExactly`);
* the centre of a band whose ends differ by an odd number of bins is rounded down, so a mirror-symmetric band
  of that kind has one half compared with its own shift: its symmetry is 1 only if it has just two bins, or if
  its bins follow one linear rule up to the centre (`Spectrum.OddMirrorBandIsSymmetric`;
  `Spectrum.MirroredButAntisymmetric` is a band with symmetry -1, `Spectrum.OddButSymmetric` one with 1). For
  an even number only the guard decides (`Spectrum.MirrorBandIsSymmetric`);
* the suppressed-carrier rule needs an index below 0.05 with a variance above 0.25, which only near-silent
  blocks have (`Classifier.SuppressedCarrierMeansSilent`);
* the burst period is the best-matching lag, which for wide pulses is two windows instead of the period. A
  train of pulses that is a burst at all (fewer than 85 windows on) is reported with its period exactly if the
  pulses are one window wide, or narrower than twice the number of whole periods, a cut period counting up to
  two more (`Burst.PulseTrainReported`; the bound is `Burst.PeriodWins`, which also covers gaps of one window);
* the collector's last sample rate is read outside its mutex, so `Processing` lets it be anything.

## Model

| member | source | states |
|---|---|---|
| TaskChannel.IqTaskChannel.OnMessage | src/IqCollector.cpp:179-194 | over the reply's two members: with the waiting id as request_id, or a request_id that is absent or another text and the id as correlation_id, the reply fills the slot; with anything else, a request_id of a wrong type included, nothing changes |
| TaskChannel.IqTaskChannel.OnReceiverOpen | src/IqCollector.cpp:170-177 | the channel becomes ready together with its work queue |
| TaskChannel.IqTaskChannel.OnTransportError | src/IqCollector.cpp:196-201 | the channel stops being ready; what is pending is untouched |
| TaskChannel.IqTaskChannel.Exchange | src/IqCollector.cpp:100-128 | once the request is out, the first reply to name the id in either member is returned, whatever the other member says, unless its request_id has a wrong type; without such a reply, or when the channel is not ready, nothing is; what was in the slot before plays no part |
| TaskChannel.IqTaskChannel.Send | src/IqCollector.cpp:131-140 | a message goes to the work queue exactly when the channel is ready, and the pending exchange is untouched |
| TaskChannel.FirstAnswer | src/IqCollector.cpp:179-194 | nothing exactly when no callback answers the id, otherwise the body of the earliest one that does |
| TaskChannel.AnsweringMembers | src/IqCollector.cpp:184-193 | which documents answer an id, member by member; none answers the empty id |
| TaskChannel.FirstMention | src/IqCollector.cpp:184-193 | the first callback to mention the id in a readable document is the answer, whatever else it says |
| TaskChannel.NoMention | src/IqCollector.cpp:184-193 | callbacks none of which mentions the id readably leave the exchange without an answer |
| TaskChannel.SlotAfter | src/IqCollector.cpp:100-128 | from any earlier state, after registering and any callbacks the slot holds the first answer among them and no later one |
| TaskChannel.QueueStaysUsable | src/IqCollector.cpp:131-140 | whenever the channel is ready its work queue has been set, through any callbacks |
| TaskChannel.ReplyIsFirstAnswer | src/IqCollector.cpp:349-380 | in every run of any number of workers, what a worker gets back is the first answer to its own id since it registered, and no other worker's step came in between |
| TaskChannel.NoStaleReply | src/IqCollector.cpp:100-128 | in every run a returned reply arrived after that very exchange registered and has its id in one of its two members, and nobody registered in between |
| TaskChannel.LateReplyNotReturned | src/IqCollector.cpp:100-128 | in every run, for two exchanges with different ids, a reply that names only the earlier one's id is never what the later one returns |
| TaskChannel.NoAnswerMissed | src/IqCollector.cpp:100-128 | in every run an exchange that returns nothing was offered no answer to its id while it waited: any message that mentioned it had a request_id of a wrong type |
| UdpReceiver.ReceiveIq | src/IqCollector.cpp:291-324 | the samples are those of the genuine datagrams in order, up to the first point where the target is reached, time runs out or select ends |
| UdpReceiver.Unpack | src/IqCollector.cpp:311-321 | a datagram's samples depend on the received bytes only, not on what earlier datagrams left in the buffer |
| UdpReceiver.ForeignDatagram | src/IqCollector.cpp:312-318 | a datagram shorter than 32 bytes or not starting with the four magic bytes yields nothing; one that announces samples and holds one yields some |
| UdpReceiver.SamplesIn | src/IqCollector.cpp:316-318 | never more samples than arrived whole, whatever the header announces |
| UdpReceiver.Overshoot | src/IqCollector.cpp:291-324 | a positive target is exceeded by fewer than 8188 samples |
| UdpReceiver.ReceivesIsDetermined | src/IqCollector.cpp:299-322 | what arrives fixes what is collected |
| UdpReceiver.GetPut | test-env/e2e_test.py:42-57 | little-endian decoding inverts encoding for every value that fits the width |
| UdpReceiver.PacketRoundTrip | test-env/e2e_test.py:49-57 | receiving a controller's packet yields exactly the samples it was built from |
| UdpReceiver.PacketsYieldPrefix | test-env/e2e_test.py:67-79 | the first packets of any signal yield a prefix of it, and all of them the whole of it |
| UdpReceiver.SignalRoundTrip | src/IqCollector.cpp:291-324 | with nothing lost and enough time, what is received is a prefix of the signal that covers the target, or the whole signal |
| Collector.ClosedAsOftenAsOpened | src/IqCollector.cpp:275-289 | in a legal log a handle is closed exactly as often as opened, but for one open socket |
| Collector.NotUsedAfterClose | src/IqCollector.cpp:366-368 | in a legal log nothing is used or closed after its close unless it was opened again |
| Collector.GrantMeaning | src/IqCollector.cpp:387-416 | a grant is read exactly from an ACCEPTED reply whose task id, first port and rate can all be read, and carries that reply's own id and port |
| Collector.RememberedRate | src/IqCollector.cpp:398-404 | the rate is remembered from exactly the ACCEPTED replies that can be read up to it, granted or not; it is the first stream's own or else the one asked for |
| Collector.PortDecides | src/IqCollector.cpp:420-430 | the prebound socket serves exactly if its own port, not 0, was granted; a port bound again serves otherwise, and nothing only if that fails |
| Collector.IqCollector.OpenBound | src/IqCollector.cpp:275-289 | a socket that cannot be bound is closed again; otherwise exactly one handle is added |
| Collector.IqCollector.ObtainSocket | src/IqCollector.cpp:418-430 | the prebound socket is used only if the controller honoured its port, and is closed otherwise |
| Collector.IqCollector.Submit | src/IqCollector.cpp:378-416 | the remembered rate and the grant are those of the first reply to this request; the rate is kept even when the port is missing |
| Collector.IqCollector.Collect | src/IqCollector.cpp:345-443 | on every path all sockets end closed and none is misused; samples come back exactly when a grant and a socket exist; the stop call happens once, last, after all closes, for the granted task, and otherwise never; the channel is handed the request and that stop, each exactly if it is ready then |
| AnalysisService.AnalysisService.OnDetection | src/AnalysisService.cpp:317-338 | a detection is suppressed within the cooldown, otherwise stamped, and queued if there is room |
| AnalysisService.AnalysisService.NextDetection | src/AnalysisService.cpp:373-393 | a worker takes the oldest detection, retries on an empty queue, and exits once stopped with nothing queued |
| AnalysisService.AnalysisService.CacheResult | src/AnalysisService.cpp:514-519 | a result replaces its own bucket's entry and no other |
| AnalysisService.AnalysisService.OnDemodCommand | src/AnalysisService.cpp:538-619 | forwards the stop of a stream exactly if it is named, and otherwise the cached result of the requested bucket if it has a modulation; changes nothing else |
| AnalysisService.AnalysisService.Stop | src/AnalysisService.cpp:292-312 | clears the running flag and leaves queue, stamps and cache alone |
| AnalysisService.ConservedStep | src/AnalysisService.cpp:317-393 | every step keeps: received = suppressed + dropped + admitted, admitted = taken followed by queued in order, at most six queued |
| AnalysisService.StoppingStep | src/AnalysisService.cpp:373-393 | every step keeps: after stop each worker takes at most one more detection and does not wait again after it |
| AnalysisService.WindingStep | src/AnalysisService.cpp:373-393 | every step keeps: after stop, what it left followed by what came since is what was taken late followed by the queue, and only workers it found waiting take late |
| AnalysisService.TrackedStep | src/AnalysisService.cpp:317-338 | every step keeps: a bucket's stamps are 300000 ms apart for any clock readings, and the map holds the last one |
| AnalysisService.CachedStep | src/AnalysisService.cpp:514-519 | every step keeps: each bucket caches exactly the last result published in it |
| AnalysisService.EveryRunSound | src/AnalysisService.cpp:292-393 | all of these hold in every state reachable by subscriber, workers, commands and stop in any order |
| AnalysisService.NothingLost | src/AnalysisService.cpp:317-393 | in every run received = suppressed + dropped + admitted, what was taken followed by the queue is what was admitted, in order, and at most six wait |
| AnalysisService.StampSpacing | src/AnalysisService.cpp:325-333 | in every run the i-th and j-th stamp of a bucket are at least (j - i) * 300000 ms apart, backward clock jumps included |
| AnalysisService.WindowBound | include/AnalysisService.hpp:126-129 | a window of length W holds at most W / 300000 + 1 stamps of one bucket |
| AnalysisService.AdmissionRate | src/AnalysisService.cpp:317-338 | in every run a bucket enters the queue at most W / 300000 + 1 times in a window of length W |
| AnalysisService.DroppedSilencesBucket | src/AnalysisService.cpp:331-335 | in every run a detection dropped on a full queue suppresses its bucket for the whole cooldown after it |
| AnalysisService.LastStampDecides | src/AnalysisService.cpp:325-335 | in every run a detection is suppressed exactly within a cooldown of its bucket's last stamp, dropped or not, and otherwise queued exactly if there is room |
| AnalysisService.FiveMinutes | src/AnalysisService.cpp:317-338 | after a detection that was not suppressed another in its 100 kHz is suppressed for exactly 300000 ms, and then queued exactly if fewer than six wait |
| AnalysisService.DropIsNotPickedUp | src/AnalysisService.cpp:331-335 | a run in which a detection is dropped and its next sighting suppressed |
| AnalysisService.StopDoesNotDrain | src/AnalysisService.cpp:373-393 | in every run each worker takes at most one detection after stop, and what is left of those queued then still heads the queue in order |
| AnalysisService.StopDrainsExactlyWhen | include/AnalysisService.hpp:100 | in every run, once both workers have exited with nothing admitted since, the queue is empty exactly if stop found no more detections than waiting workers |
| AnalysisService.StopLeavesWork | include/AnalysisService.hpp:100 | a run that stops with three detections queued and both workers gone |
| AnalysisService.SameBucketClose | src/AnalysisService.cpp:321 | frequencies of one bucket lie within 100 kHz, or 200 kHz when they straddle zero |
| AnalysisService.RequestsCloseExactly | src/AnalysisService.cpp:569-579 | every positive frequency of a result's bucket is within 100 kHz of it exactly if the result does not lie in the negative half of the bucket around zero |
| AnalysisService.BucketZeroIsWide | src/AnalysisService.cpp:569 | two frequencies 110 kHz apart that share the bucket around zero |
| AnalysisService.ForwardsLastResult | src/AnalysisService.cpp:562-619 | in every run a command is forwarded exactly when its frequency is positive and the last result published in its bucket has a modulation; it carries that result, which came from a received detection and lies within 100 kHz |
| SignalTable.Table.PersistResult | src/AnalysisService.cpp:668-784 | refreshes a nearest row of the same modulation within 10 kHz and half the bandwidth, else promotes a nearest recent unclassified one, else inserts, with SQL's treatment of NULL |
| SignalTable.Table.Select | src/AnalysisService.cpp:675-682 | finds a qualifying row than which none is nearer, or shows that there is none |
| SignalTable.OneRowAtMost | src/AnalysisService.cpp:685-782 | a write changes or adds at most one row, deletes none, keeps ids and first sightings, and never lowers a hit count |
| SignalTable.BranchByColumns | src/AnalysisService.cpp:675-726 | which branch a write takes, over the columns: known exactly if some row with the result's own modulation is within 10 kHz and half its bandwidth, inserted only if none unclassified in the last ten minutes is; the row left behind has the result's modulation on every branch |
| SignalTable.ColumnsKept | src/AnalysisService.cpp:685-782 | what a write keeps of the row it finds, column by column, and what it takes from the result |
| SignalTable.DifferentRows | src/AnalysisService.cpp:668-784 | results with different modulations leave different rows one after the other, unless the first counted as unclassified and its row is promoted to the second |
| SignalTable.WrittenMatches | src/AnalysisService.cpp:685-782 | the row a write leaves behind is found again by the same result, NULL and zero bandwidths and promotions included |
| SignalTable.PersistIsIdempotent | src/AnalysisService.cpp:668-784 | persisting a result with a modulation again, at any later or earlier time, takes the known-signal branch and adds no row |
| SignalTable.EmptyModulationRepeats | src/AnalysisService.cpp:673-683 | without a modulation a second write inserts again exactly when the first row is no longer promotable and no other row is |
| SignalTable.SettledStays | src/AnalysisService.cpp:709-756 | a row that settles a signal still does after any write of any other result |
| SignalTable.KnownForever | src/AnalysisService.cpp:668-784 | over any run of writes, a signal once persisted is recognised at every later write of it, however many others came between |
| SignalTable.EachKeepsItsRow | src/AnalysisService.cpp:668-784 | over any run of writes, any two different modulations persisted in it have a row each at the end, near their frequency and bandwidth |
| Results.OrdersAreDistinguished | src/AnalysisService.cpp:638-641 | one digital modulation with two orders is stored as two modulations, and order one is not written |
| Processing.ProcessDetection | src/AnalysisService.cpp:400-453 | at a snapshot confidence of 0.75 or more the network's answer for the snapshot is published and no receiver borrowed; otherwise the engine's answer for the samples received, exactly if there are any; what is published is cached under the detection's bucket and persisted; every socket ends closed |
| Processing.Publish | src/AnalysisService.cpp:455-536 | publication changes the cache and the table by one step each |
| Cumulants.ComputeCumulants | src/FeatureExtractor.cpp:161-204 | the loop computes the cumulants of the block's five power sums, and zeros below the power guard |
| Cumulants.C42Bounds | src/FeatureExtractor.cpp:192-203 | -2 <= c42 <= N - 2 for every block of N samples above the guard |
| Cumulants.C42Invariant | src/FeatureExtractor.cpp:192-203 | c42 is unchanged by any complex gain that stays above the guard |
| Cumulants.C40Rotates | src/FeatureExtractor.cpp:196-201 | a complex gain turns c40 by four times its own angle |
| Cumulants.ConstantModulusC42 | src/FeatureExtractor.cpp:192-203 | for constant modulus c42 = -1 - M20^2/M21^2 in squared magnitudes, so it lies in [-2, -1] |
| Cumulants.C40WithinC42 | src/FeatureExtractor.cpp:196-203 | for constant modulus the real part of c40 lies between c42 and -c42 |
| Cumulants.BalancedCumulants | src/FeatureExtractor.cpp:196-203 | for constant modulus with cancelling squares c42 is exactly -1 and c40 within [-1, 1] |
| Cumulants.QpskBlock | src/ModulationClassifier.cpp:111-115 | the four points of QPSK meet the hypotheses of the ideal-QPSK theorems |
| Cumulants.BpskCumulants | src/FeatureExtractor.cpp:196-203 | ideal BPSK has c40 = c41 = c42 = -2 exactly |
| ChirpRegression.DetectChirp | src/FeatureExtractor.cpp:403-450 | the loops compute the regression; samples that turn by an angle growing with a fixed step are reported exactly if that is over 0.01 Hz a sample, with the rate of the step, its sign included |
| ChirpRegression.DenominatorPositive | src/FeatureExtractor.cpp:426-427 | the regression's denominator has a closed form and is at least one, so its guard never fires |
| ChirpRegression.FitIsOptimal | src/FeatureExtractor.cpp:429-439 | no straight line has a smaller squared error than the fitted one |
| ChirpRegression.RSquaredInUnitInterval | src/FeatureExtractor.cpp:433-440 | 0 <= residual <= total, so the goodness of fit lies in [0, 1] |
| ChirpRegression.LinearSweepDetected | src/FeatureExtractor.cpp:442-448 | an exactly linear sweep is reported exactly when its rate exceeds 0.01 Hz per sample, with its true slope |
| ChirpRegression.SweepReported | src/FeatureExtractor.cpp:411-449 | from samples: if each is the one before turned by an angle that grows by a fixed step, whatever the magnitudes, the slope is the step in hertz |
| ChirpRegression.ChirpByResidual | src/FeatureExtractor.cpp:440-449 | a chirp is found exactly if the fit leaves under a twentieth of a variation above 1e-12 and its slope exceeds 0.01 in size |
| ChirpRegression.OffsetInvariant | src/FeatureExtractor.cpp:403-450 | a carrier offset changes neither the decision nor the slope |
| CyclicPrefix.CorrelatePrefixes | src/FeatureExtractor.cpp:305-319 | the loops correlate each symbol's head with the samples one transform length later, never out of range |
| CyclicPrefix.DetectOfdm | src/FeatureExtractor.cpp:281-339 | detects exactly when some candidate's score passes the threshold, and reports the first candidate that no other exceeds |
| CyclicPrefix.CandidateTable | src/FeatureExtractor.cpp:287-298 | every FFT size from 64 to 2048 is tried with prefixes of a quarter, an eighth and a sixteenth |
| CyclicPrefix.CandidateOrder | src/FeatureExtractor.cpp:294-298 | no two candidates are alike, and they are tried by ascending size and then by falling prefix |
| CyclicPrefix.FourSymbols | src/FeatureExtractor.cpp:298-299 | only a candidate of which four whole symbols fit scores; an exact audible prefix of that many scores one; below 272 samples nothing does |
| CyclicPrefix.GoodEnough | src/FeatureExtractor.cpp:321-333 | a candidate counts as detected exactly if four symbols fit, both energies clear their guard and |corr|^2 exceeds 0.49 of their product |
| CyclicPrefix.ScoreInUnitInterval | src/FeatureExtractor.cpp:323 | every candidate's squared score lies in [0, 1] |
| CyclicPrefix.ExactPrefixScoresOne | src/FeatureExtractor.cpp:301-323 | an exact aligned prefix above the energy guard scores one |
| CyclicPrefix.ExactPrefixDetected | src/FeatureExtractor.cpp:325-338 | such a block is always detected, and the reported pair explains it as well as any |
| CyclicPrefix.ScoreIgnoresCarrierOffset | src/FeatureExtractor.cpp:301-323 | a carrier offset changes no candidate's score |
| Sorting.SortedCopyIsUnique | src/FeatureExtractor.cpp:565-566 | a vector has one sorted copy, so the noise floor does not depend on how the library sorts |
| Spectrum.MeasureNoise | src/FeatureExtractor.cpp:558-574 | total, noise and signal power; the signal power is never clamped and vanishes exactly for a flat spectrum |
| Spectrum.NoiseWithinTotal | src/FeatureExtractor.cpp:565-574 | the noise power never exceeds the total power, with equality exactly for a flat spectrum |
| Spectrum.QuietFifth | src/FeatureExtractor.cpp:565-571 | the noise floor is the least bin exactly if a fifth of the bins, or one of fewer than five, have that value |
| Spectrum.OccupiedBand | src/FeatureExtractor.cpp:582-589 | the walk ends with a run above a tenth of the first peak that cannot be extended |
| Spectrum.BandIsUnique | src/FeatureExtractor.cpp:587-589 | there is only one such run around the peak |
| Spectrum.SpectralSymmetry | src/FeatureExtractor.cpp:608-632 | the symmetry is the correlation of the bins left and right of the rounded centre, all read inside the band |
| Spectrum.ClampNeverFires | src/FeatureExtractor.cpp:626-628 | the correlation is already within [-1, 1] |
| Spectrum.CoefficientMeaning | src/FeatureExtractor.cpp:626-627 | the coefficient times the root of the product of the variations is the covariation, or zero below the guard |
| Spectrum.PerfectSymmetry | src/FeatureExtractor.cpp:619-628 | two halves have symmetry 1 exactly if they clear the guard and their deviations are positive multiples of each other |
| Spectrum.MirrorBandIsSymmetric | src/FeatureExtractor.cpp:609-631 | a mirrored band of even width has symmetry 1 exactly if it is one bin or its halves' variation clears the guard, and 0 otherwise |
| Spectrum.OddMirrorBandShifts | src/FeatureExtractor.cpp:609-628 | a mirrored band of odd width gets the correlation of its half with the same half moved by a bin |
| Spectrum.OddMirrorBandIsSymmetric | src/FeatureExtractor.cpp:609-628 | a mirrored band of odd width has symmetry 1 exactly if it has two bins, or its half and the shifted half clear the guard and each bin up to the centre is the same increasing linear function of the next |
| Spectrum.OddButSymmetric | src/FeatureExtractor.cpp:609-628 | a mirrored band of odd width whose symmetry is 1 |
| Spectrum.MirroredButAntisymmetric | src/FeatureExtractor.cpp:609-628 | a mirror-symmetric spectrum, itself the occupied band, whose symmetry is -1 |
| Envelope.MeasureEnvelope | src/FeatureExtractor.cpp:635-662 | the loops compute mean, variance, normalised variance and AM index of the magnitudes |
| Envelope.StatsOfExtremes | src/FeatureExtractor.cpp:652-661 | the AM index is the difference of the extremes over their sum, and the normalised variance the variance over the squared mean, above the guards |
| Envelope.VarianceBound | src/FeatureExtractor.cpp:646-650 | the variance is at most (max - mean) * (mean - min) |
| Envelope.VarianceNeedsIndex | src/FeatureExtractor.cpp:652-661 | variance * (1 - index^2) <= index^2 once the extremes clear their guard |
| Envelope.SuppressedCarrierCondition | src/FeatureExtractor.cpp:652-661 | among blocks of variance above 0.25 the index is below 0.05 exactly when the extremes fail their guard |
| Envelope.NearSilentBlock | src/FeatureExtractor.cpp:652-661 | a block for which it does happen |
| Burst.DetectBurst | src/FeatureExtractor.cpp:480-531 | the duty cycle is the share of windows above a tenth of the peak; a burst is reported exactly with a positive period, that of the smallest best lag |
| Burst.TenthOfPeak | src/FeatureExtractor.cpp:488-503 | a window is on exactly if it has over a tenth of the energy of a window that none exceeds |
| Burst.FindLag | src/FeatureExtractor.cpp:512-525 | the lag found is the smallest of 2 to 49 that no other beats |
| Burst.PulseTrainReported | src/FeatureExtractor.cpp:495-531 | what is reported for pulses of any width and any period from 2 to 49: a burst exactly if fewer than 85 windows are on, and then the period if it wins by width and period alone, and otherwise two windows |
| Burst.PulseLag | src/FeatureExtractor.cpp:512-525 | the best lag of such a train is its period if the period wins and 2 otherwise, duty cycle aside |
| Burst.PulseCorrelation | src/FeatureExtractor.cpp:515-519 | the on/off autocorrelation of such a train at any lag below its period, in closed form, a cut last period included |
| Burst.ImpulsePeriodReported | src/FeatureExtractor.cpp:512-525 | the period of one-window pulses is always reported, whatever the period and the phase |
| Burst.PatternHasBlock | src/FeatureExtractor.cpp:488-506 | every on/off pattern with an on window is the pattern of some block |
| Burst.WidePulsesMisreported | src/FeatureExtractor.cpp:512-525 | a block of period 40, with 60 windows on, for which lag 2 is reported |
| PhaseStatistics.MeasurePhase | src/FeatureExtractor.cpp:668-682 | the loops compute the standard deviation of the samples' arguments |
| PhaseStatistics.MeasureFrequency | src/FeatureExtractor.cpp:454-476 | the loops compute mean and standard deviation of the frequency steps, and zeros for fewer than two; a tone has the mean it turns at, its sign included, and no deviation |
| PhaseStatistics.ToneFrequency | src/FeatureExtractor.cpp:463-475 | samples that all turn by the angle t, whatever their magnitudes, have mean frequency t sr / (2 pi) and deviation 0 |
| PhaseStatistics.CancellingSquaresSpreadPhases | src/FeatureExtractor.cpp:668-682 | constant modulus with cancelling squares forces a phase variance of at least one half |
| PhaseStatistics.SelectVariance | src/FeatureExtractor.cpp:679-680 | values that are v or -v at k of n places, v ahead by d, and zero elsewhere have variance (k n - d^2) v^2 / n^2 |
| PhaseStatistics.EnoughMarks | src/FeatureExtractor.cpp:454-476 | whatever the signs, such values deviate by more than t if k (n - k) v^2 > (t n)^2 |
| PhaseStatistics.AntipodalPhaseStd | src/FeatureExtractor.cpp:668-682 | with k of n samples negative, d more at phase pi than at -pi, the phase deviation of an antipodal block exceeds 0.3 exactly if (k n - d^2) pi^2 > (0.3 n)^2 |
| PhaseStatistics.AntipodalFrequencyStd | src/FeatureExtractor.cpp:454-476 | with k of n steps flipping, d more by pi than by -pi, its frequency deviation exceeds t exactly if (k n - d^2) (sr/2)^2 > (t n)^2, for any signs the zeros may have |
| PhaseStatistics.AlternatingFrequencyStd | src/FeatureExtractor.cpp:463-476 | if the imaginary parts are positive zeros, falling and rising flips turn opposite ways and alternate, so d^2 is 1 or 0 as k is odd or even |
| PhaseStatistics.BalancedAntipodalSpread | src/FeatureExtractor.cpp:668-682 | an antipodal block with half its samples negative has a phase deviation above 0.3 |
| Classifier.ClassifyAnalog | src/ModulationClassifier.cpp:46-86 | the tree's analog label: FM wins over PM over the AM family; the index is the frequency deviation for FM, the phase deviation for PM, zero for CW and the AM index for the rest; Classifier.AnalogByRegion says which block gets which label |
| Classifier.ClassifyDigital | src/ModulationClassifier.cpp:90-176 | FSK-like and PSK labels only for a constant envelope, QAM labels only without one |
| Classifier.Classify | src/ModulationClassifier.cpp:180-293 | every field of layers 1 to 4, among them: classified exactly at 5 dB or more; every label given exactly on its own region of the features; line code exactly for FSK and GMSK and Manchester exactly at about twice the symbol rate; bit rate and subcarrier spacing |
| Classifier.ExactlyOneLabel | src/ModulationClassifier.cpp:203-293 | a classified signal has exactly one of the two labels, an unclassified one none |
| Classifier.AnalogByRegion | src/ModulationClassifier.cpp:46-86 | each analog label, FM_WB apart from FM_NB and USB apart from LSB, is given to exactly the undecided blocks in its region, stated as numeric bounds that exclude each other |
| Classifier.DigitalByRegion | src/ModulationClassifier.cpp:90-176 | each digital label of the tree is given to exactly the undecided blocks outside all analog regions in its rectangle of the cumulants, what earlier rectangles claim taken off |
| Classifier.VerdictByRegion | src/ModulationClassifier.cpp:203-293 | both at once for every label, the structural ones included |
| Classifier.IndexAndOrder | src/ModulationClassifier.cpp:46-176 | the index and the number of symbols that go with each label |
| Classifier.SuppressedCarrierMeansSilent | src/ModulationClassifier.cpp:73-76 | an extracted block is labelled AM_DSB_SC exactly when the AM branch is taken on a block whose extremes fail their guard |
| Classifier.SidebandBySymmetry | src/ModulationClassifier.cpp:64-86 | for a loud extracted block the AM family is single-sideband exactly when the symmetry feature is below one half; the index test never decides |
| Classifier.ConstantModulusVerdict | src/ModulationClassifier.cpp:23-44 | an undecided constant-modulus block is FM, PM or digital exactly as its frequency deviation compares with a tenth of the bandwidth and its phase deviation with 0.3 |
| Classifier.QpskLabelExactly | src/ModulationClassifier.cpp:111-115 | a constant-modulus block is labelled QPSK exactly if it is undecided, not analog, not tonal, and has c42 above -1.6 and c40 below -1.5 |
| Classifier.IdealQpskLabel | src/ModulationClassifier.cpp:23-126 | ideal QPSK that is undecided is FM if its frequency deviates by more than a tenth of the bandwidth, PM if by less, and at equality GMSK, 8PSK or PSK, never QPSK |
| Classifier.IdealBpskLabel | src/ModulationClassifier.cpp:23-109 | ideal BPSK that is undecided is FM above a tenth of the bandwidth, PM below it if the signs vary, and only otherwise BPSK or GMSK |
| Classifier.FlippingBpskIsFm | src/ModulationClassifier.cpp:29-31 | ideal BPSK of which enough steps flip is labelled FM |
| Classifier.ManyAlternatingFlips | src/FeatureExtractor.cpp:463-476 | with positive zeros k flips of n steps are enough if k n, less one if k is odd, is at least n^2 / 25: about 4 percent, with no upper limit |
| Classifier.ManyFlips | src/FeatureExtractor.cpp:463-476 | whatever the signs of zeros, between 4.2 and 95.8 percent of the steps are enough |
| Extraction.Extract | src/FeatureExtractor.cpp:535-713 | the features are those of the psd's occupied band, of the samples and of the structure detectors; too short a block keeps the defaults |
| Extraction.BandwidthBelowRate | src/FeatureExtractor.cpp:587-591 | the extracted bandwidth is below the sample rate |
| Extraction.BandwidthInBins | src/FeatureExtractor.cpp:582-591 | the bandwidth is that of the bins between the ends of the run above a tenth of the highest bin |
| Extraction.SnrOverFloor | src/FeatureExtractor.cpp:558-580 | the SNR of any spectrum a fifth of whose bins are at its least value, in terms of that value and the total |
| Extraction.FlatSpectrum | src/FeatureExtractor.cpp:576-580 | a flat spectrum has -200 dB, but 60 dB if it has no power to speak of |
| Extraction.AnalyseBlock | src/ModulationClassifier.cpp:190-255 | for every block at a positive rate the TDMA flag equals the burst flag, exactly the classified ones carry a label, no loud block is AM_DSB_SC and none is DSSS |
| TensorPacking.BuildTensor | src/OnnxClassifier.cpp:164-183 | the buffer is the signal's tensor: cut or padded, in-phase half then quadrature half, normalised |
| TensorPacking.TensorHoldsSignal | src/OnnxClassifier.cpp:167-183 | up to one positive factor the signal can be read off its tensor: in-phase floats first, then quadrature, zeros after the last whole sample |
| TensorPacking.UnitPower | src/OnnxClassifier.cpp:175-183 | the tensor's mean power is exactly one, unless every sample was zero |
| TensorPacking.GainInvariant | src/OnnxClassifier.cpp:175-183 | the tensor does not depend on the gain of the signal |
| TensorPacking.JoinedRow | src/OnnxClassifier.cpp:240-245 | every row of a flat buffer can be cut out again where it was put |
| BatchInference.SoftmaxInPlace | src/OnnxClassifier.cpp:39-45 | the in-place loops compute the softmax of what the buffer held |
| BatchInference.SoftmaxSharesExponentials | src/OnnxClassifier.cpp:39-45 | each share is its own exponential over the sum of all: taking the maximum off first changes nothing |
| BatchInference.SoftmaxIsDistribution | src/OnnxClassifier.cpp:39-45 | the shares are positive and sum to one |
| BatchInference.SoftmaxKeepsOrder | src/OnnxClassifier.cpp:39-45 | shares are ordered as the logits are |
| BatchInference.TopClassIsTopLogit | src/OnnxClassifier.cpp:204-208 | the reported class is the first largest logit, ties included |
| BatchInference.ConfidenceFloor | src/OnnxClassifier.cpp:210-211 | the confidence is at least one over the number of classes |
| BatchInference.LabelOfTop | src/OnnxClassifier.cpp:207-213 | the label is the name of the first largest logit, or its number if it has no name |
| BatchInference.Classify | src/OnnxClassifier.cpp:156-221 | the result is what the session answers for the signal's tensor, invalid when it is not loaded or fails |
| BatchInference.PackSignals | src/OnnxClassifier.cpp:240-262 | the packed buffer is the signals' tensors one after the other |
| BatchInference.ClassifyBatch | src/OnnxClassifier.cpp:225-297 | every signal is answered in order from its own row, however many there are |
| BatchInference.BatchRefinesSingle | src/OnnxClassifier.cpp:156-297 | for a model that answers rows by themselves, each batch result equals the single-signal result |
| SignatureRanking.Score | src/ProtocolMapper.cpp:24-109 | the loops and branches compute the score that the rows below characterise |
| SignatureRanking.MatchModulations | src/ProtocolMapper.cpp:38-62 | the early exit does not matter: the level is 1 if any entry matches fully, else 0.6 if any matches partly, else 0 |
| SignatureRanking.ScoreRange | src/ProtocolMapper.cpp:95-108 | scores lie in [0, 1], and at most 0.3 when a structural requirement is violated |
| SignatureRanking.BandGap | src/ProtocolMapper.cpp:101-106 | out of band scores at most 0.60; in band, fully matched and unpenalised at least 0.70 |
| SignatureRanking.PerfectScore | include/ProtocolMapper.hpp:72-77 | what a score of exactly one means |
| SignatureRanking.ZeroScore | include/ProtocolMapper.hpp:72-77 | what a score of exactly zero means |
| SignatureRanking.BandWorth | src/ProtocolMapper.cpp:27-35 | without a penalty, in band against out of band is worth exactly 0.40 |
| SignatureRanking.ModulationWorth | src/ProtocolMapper.cpp:37-60 | against no match, a full match is worth 0.30, a partial one 0.18 and an empty list 0.15 |
| SignatureRanking.BandwidthWorth | src/ProtocolMapper.cpp:62-75 | a centred bandwidth, or no range, is worth 0.15 against one far outside |
| SignatureRanking.RateWorth | src/ProtocolMapper.cpp:77-92 | a centred symbol rate, or no range, is worth 0.15 against one far outside and 0.105 against an unknown one |
| SignatureRanking.PenaltyOfEach | src/ProtocolMapper.cpp:94-106 | each violated burst requirement multiplies the score by 0.3, each violated OFDM or FHSS requirement by 0.2, and a met one changes nothing |
| SignatureRanking.EdgeMatch | src/ProtocolMapper.cpp:69-73 | the ends of a range count for exp(-1/8) of its middle |
| SignatureRanking.PointMatch | src/ProtocolMapper.cpp:71-73 | for a range of one value, 30 percent off counts for exp(-1/2) |
| SignatureRanking.SingleEntry | src/ProtocolMapper.cpp:45-58 | what a single listed modulation counts for, by the labels and flags themselves |
| TopHypotheses.Map | src/ProtocolMapper.cpp:443-490 | at most three distinct signatures above 0.05, best first, and none left out beats a listed one |
| TopHypotheses.ConfidenceRange | src/ProtocolMapper.cpp:448-452 | at most three are listed, with confidences in (0.05, 1], and fewer only if everything above 0.05 is listed |
| TopHypotheses.TopIsInBand | src/ProtocolMapper.cpp:443-490 | one convincing in-band signature is enough for the top hypothesis to be in band |
| TopHypotheses.ConfidencesAreDetermined | src/ProtocolMapper.cpp:454-456 | however the sort orders ties, the number and the confidences of the hypotheses are the same |

## Left out

- Floating point: rounding, overflow, NaN and the conversion of `float` to `double`; all theorems are about exact reals. Zeros carry no sign: where `std::arg` depends on it, on the negative real axis, both of its values are allowed at every place.
- Integer width: counters, times and ports are unbounded integers; `udp_port` is taken as the integer it denotes.
- Proton, libpqxx, spdlog, JSON text, base64, XML configuration and FFTW: a reply or a command enters as its parsed members, a spectrum as a sequence.
- The SDR headers (`sdr::IqPacketHeader` and its constants) are not part of this model; the packet layout is that of test-env/e2e_test.py.
- Connecting, reconnecting and shutting down the channel (`start`, `stop`, `on_connection_open`), and restarting a stopped service.
- Liveness: nothing says that a wait ends or a worker wakes; waits may end at any moment.
- Concurrent database transactions and failed ones: each write is one atomic call that commits.
- The table's schema is not part of this model: ids are taken to be unique, and a new row's hit count is the column's default.
- Spectral flatness, symbol rate and frequency hopping: features with transcendental functions; they enter the classifier as measured values. The logarithm in the SNR is an argument.
- The engine's choice between rules and network, its rule confidence, UUIDs, and the text of a hypothesis: single-pass code that would only add easy members. The engine enters `Processing` as two functions that copy the centre frequency.
- The individual signatures: the ranking is proved for every database whose ranges are ordered and non-negative, as the built-in one's are.
- The bodies of the JSON messages sent, beyond request ids, task ids, results and modulations; the bandwidth and duration of a task request.
- Sending to the broker after a result or a command has been built: whether a publisher is connected does not change the state.
- UdpReceiver.ReceiveIq: running out of listed arrivals stands for the deadline; the passing of time itself is not modelled.
- SignalTable.KnownForever: assumes what src/AnalysisEngine.cpp:95-133 and 185-207 ensure, that a result with a modulation is marked classified.
- SignalTable.EachKeepsItsRow: assumes the same; `SignalTable.DifferentRows` says what can happen without it.
- ChirpRegression.SweepReported, PhaseStatistics.ToneFrequency: the angle of each turn is what `std::arg` says of it, so a sweep ends where its turn would wrap at pi.
- Burst.PulseTrainReported: covers trains that start with a whole pulse; trains of another phase are covered for one-window pulses only.
