# MTP2 link engine: a verified model

This project models the ITU-T Q.703 signalling link of the repository: the two error-correction
methods, the link state machine, the error-rate monitors and the signal-unit codec. It proves what
they keep in every run.

| File | What it holds |
|---|---|
| `Basics.dfy`, `Sequence.dfy` | octets, errors, MSUs; 7-bit sequence arithmetic and absolute indices |
| `Retransmission.dfy`, `RetransmissionControl.dfy` | one transmit and one receive side: functions of the state, and the objects proved to carry them out in place |
| `TransmitBuffer.dfy` | conservation on the transmit side against arbitrary acknowledgements; the PCR bounds |
| `Session.dfy` | one direction as a state machine: transmitter, receiver and two lossy first-in-first-out channels |
| `Handshake.dfy`, `ExactlyOnce.dfy`, `Windows.dfy` | the Basic negative-acknowledgement handshake, exactly-once delivery, and the exact windows of both |
| `CyclicOrder.dfy` | in which order preventive cyclic retransmission repeats the buffer |
| `Recovery.dfy`, `BasicProgress.dfy`, `Stranding.dfy`, `Lossless.dfy`, `PcrProgress.dfy` | recovery and progress over that machine, exactly when there is none, and how that comes about |
| `Monitor.dfy`, `LeakyBucket.dfy` | AERM and SUERM objects; the SUERM as a property of its whole history |
| `SignalUnits.dfy` | encode and decode as inverses, and the octets themselves |
| `LinkControl.dfy`, `LinkEngine.dfy` | the link: functions of its state, and the object proved to carry them out in place |
| `LinkInvariants.dfy`, `EventLog.dfy`, `Emission.dfy`, `ProvingPeriod.dfy` | invariants of every run of one link |
| `Observer.dfy`, `ObservedLink.dfy`, `LinkBehaviour.dfy`, `LinkUnits.dfy` | an observer who counts and remembers what a link was asked and heard, without reading its timers, monitors or flags; and the proof that in every run the events, states and units of the link are those the observer expects |
| `TwoLinks.dfy`, `Alignment.dfy`, `AlignmentAgreement.dfy` | two links back to back: when alignment completes, and what it implies |
| `Deliveries.dfy`, `LinkDelivery.dfy`, `LinkWire.dfy` | exactly-once delivery from link to link, over signal units and over their octets |
| `Traffic.dfy`, `EndToEnd.dfy` | progress from link to link: from alignment to every queued MSU reported, and links that stay in service delivering nothing |

A run is a sequence of operations (or, for two links, of acts at either end), and a theorem about
runs quantifies over all of them. Units in flight carry absolute indices that neither end reads;
sequence numbers are those indices modulo 128. Channels lose and delay but never reorder or
duplicate, as a timeslot does; losing only the oldest unit still gives every loss pattern.

The imperative parts of the source are classes here. Each method's `ensures` gives its whole new
state as a function of the old one, and the theorems are about those functions. `Valid` of the link
object holds the timer, outage and monitor invariants, and every operation keeps it.

## What the proofs found

- PCR delivers exactly once and in order in every run iff N1 or N2 is at most 127
  (`PcrAlwaysInOrder`). N2 counts because an MSU has at least one octet. With both at 128 or more a
  sweep makes the receiver deliver the first MSU a second time.
- PCR drains from every reachable state with empty channels iff both thresholds are at least 1 and
  one of them is at most 64 (`PcrAlwaysDrains`). The default of 127 MSUs and 8000 octets is outside:
  with 65 one-octet MSUs outstanding, a BSN 64 ahead of the oldest is ignored
  (`src/retransmission.rs:274`) and nothing is ever released.
- The Basic method has no window at all (`src/retransmission.rs:193`). After 128 losses the 129th
  MSU is accepted in place of the first (`BasicMistakes`). A bound on what is outstanding puts every
  Basic run in order iff it is at most 128 (`BasicWindowIsTight`); for PCR the bound is 127, and so it
  is over both schemes (`WindowIsTight`). Toggles and sweeps stay paired up to the same 128
  (`BasicHandshake`), but nothing stale is sent iff at most 66 are outstanding (`FreshWindowIsTight`):
  beyond that the BSN that answers a gap can be ignored, and the sweep starts too early.
- With at most 66 outstanding a gap is noticed iff the arriving MSU is 1 to 62 past the expected one
  (`GapIsNoticedIff`). After 63 to 126 losses in a row the next arrival counts as a duplicate and nothing is asked for
  (`LossesNoticedIff`).
- During a Basic sweep an acknowledgement moves the cursor back by one however much it releases
  (`src/retransmission.rs:284-287`). The rounds of a sweep deliver one MSU each iff no acknowledgement
  but one after the last unit follows an unacknowledged unit (`SweepIsExact`, `BasicRecovery`). A late
  one can leave the last MSU behind on a perfect line (`LateAckNeverRecovers`), until another MSU is
  submitted and shows the gap (`LateAckThenAnotherRecovers`).
- If the first unit of a sweep is lost, nothing more is delivered while at most 128 are outstanding,
  because the pending request blocks another (`src/retransmission.rs:362`, `LostAgainNeverRecovers`).
- A Basic run within its window that comes to rest can still deliver everything iff it is not stuck:
  the transmitter is past an MSU that the receiver lacks, and the receiver has asked already, or
  nothing more comes, or all that comes is 63 to 126 ahead, or comes 128 ahead and passes for the
  missing one (`BasicDeliversIff`, for queues of any length).
- Two links with a stuck direction stay in service for ever: every unit heard restarts T7
  (`src/link.rs:596-600`, `StrandedPairStaysInService`).
- Two links that can align, with T at least 1, T7 at least 2, one scheme and positive thresholds,
  deliver on a lossless line all that is queued, within two cycles for every MSU
  (`QueuedMsusAreDelivered`). Starting lossless they never have more than two outstanding, so PCR
  needs no small threshold here.
- Two links started together over a lossless line reach service iff their timers fit
  (`AlignmentCompletesIff`). If either end asks for emergency alignment, each SIE heard while proving
  starts proving again (`src/link.rs:508-513`), so with emergency periods of two ticks or more at
  both ends they never reach service, and unless T3 expires they prove for ever
  (`EmergencyNeverCompletes`). The default period is 6. The comment
  there describes a switch to a shorter period, not a restart.
- An MSU with fewer than two SIF octets takes the length indicator of an LSSU and does not decode to
  itself; every other encodable unit does (`DecodeOfEncode`). It decodes as the status unit that its SIO
  spells, and takes a peer in service out of service iff the low three bits of the SIO are 0 to 3
  (`WiredMsuEndsServiceIff`). What is reported stays a prefix of what was queued even so
  (`WiredLinksDeliverExactlyOnce`).
- The comment at `src/retransmission.rs:368-370` says that duplicates never toggle the BIB. A repeat of
  the last accepted MSU is at distance 0 and counts as a gap (`src/retransmission.rs:359`); the model
  follows the code. The module header places PCR in section 5.4 of Q.703, which specifies it in
  section 6.
- T6 is restarted by every SIB (`src/link.rs:553`), so it does not bound how long a peer stays
  congested, only how long after its last SIB (`ServiceDeadlines`); T7 goes on counting meanwhile, since
  only a FISU or MSU restarts it.
- A SUERM interval of 0 behaves as 1, and a failure is latched even if the count falls again.

## Model

| member | source | states |
|---|---|---|
| Sequence.NextFsn | src/retransmission.rs:36-38 | the number after the last assigned one is that of the next absolute index |
| Sequence.ForwardOfIndices | src/retransmission.rs:41-43 | the forward distance between the numbers of two absolute indices is their difference modulo 128, for any indices |
| Sequence.WindowMakesFsnExact | src/retransmission.rs:350-351 | within 127 of the expected index, a number is the expected one iff the index is |
| RetransmissionControl.TxControl.constructor | src/retransmission.rs:125-136 | FSN 127, FIB 1, nothing queued or buffered |
| RetransmissionControl.TxControl.Submit | src/retransmission.rs:154-156 | appends to the pending queue and changes nothing else |
| RetransmissionControl.TxControl.UnackedOctets | src/retransmission.rs:159-161 | the loop computes the octets of the whole buffer |
| RetransmissionControl.TxControl.Poll | src/retransmission.rs:165-170 | the new state and the frame are those of the scheme's poll function |
| RetransmissionControl.TxControl.PollBasic | src/retransmission.rs:172-214 | whole new state and frame of a Basic poll: sweep, then new MSU, then fill |
| RetransmissionControl.TxControl.PollPcr | src/retransmission.rs:216-263 | whole new state and frame of a PCR poll: new MSU unless forced, then the cyclic copy, then fill |
| RetransmissionControl.TxControl.OnAck | src/retransmission.rs:269-297 | the popping loop leaves what the recursive release leaves, and cursors and FIB are as specified |
| RetransmissionControl.RxControl.constructor | src/retransmission.rs:328-335 | BSN 127, BIB 1, no request outstanding |
| RetransmissionControl.RxControl.OnMsu | src/retransmission.rs:349-372 | whole new state and outcome of the sequence check |
| TransmitBuffer.DropAckedClosedForm | src/retransmission.rs:272-280 | a BSN at distance d below 64 from the oldest entry releases exactly min(len, d + 1) entries, and none otherwise |
| TransmitBuffer.PollConserved | src/retransmission.rs:165-263 | a poll keeps freed, buffered and pending equal to what was submitted, and emits exactly the entry it stands for under its number |
| TransmitBuffer.AckConserved | src/retransmission.rs:269-297 | any acknowledgement only moves a prefix of the buffer to freed |
| TransmitBuffer.TransmitConservation | src/retransmission.rs:154-297 | in every run against arbitrary acknowledgements, freed, buffered and pending MSUs are those submitted, in order, with consecutive numbers ending at the last FSN |
| TransmitBuffer.PcrBounds | src/retransmission.rs:216-237 | in every PCR run at most N1 MSUs (and at most N2) are buffered, their octets stay below N2 plus the largest MSU, and FIB stays 1 |
| CyclicOrder.SweepsFromTheOldest | src/retransmission.rs:229-283 | in every PCR run, after a poll that numbered an MSU or an acknowledgement that released one, the i-th following poll that numbers nothing repeats the i-th buffered MSU, counted from the oldest modulo the buffer's length, under its own number |
| CyclicOrder.FillCarriesLastNumber | src/retransmission.rs:207-262 | in every run of either scheme a fill-in frame carries the number of the last MSU numbered, 127 before the first, and FIB |
| Session.AckNeverAhead | src/retransmission.rs:272-280 | a BSN that tells the truth about an earlier moment never releases what the receiver has not accepted |
| Session.BooksKept | src/retransmission.rs:154-372 | every action keeps the delivered sequence a prefix of the submitted one between freed and numbered, given that the next arrival's number matches only if its index does |
| ExactlyOnce.ExactlyOnceInOrder | src/retransmission.rs:165-372 | in every run with at most 127 outstanding under PCR or 128 under Basic: delivered is a prefix of submitted, freed ≤ accepted ≤ numbered, and the next arrival has the expected number iff it has the expected index |
| ExactlyOnce.PcrBitsNeverChange | src/retransmission.rs:290-371 | in every PCR run FIB and BIB stay 1 and no toggle is made or seen |
| Windows.PcrAlwaysInOrder | src/retransmission.rs:216-237 | PCR delivers exactly once in order in all runs iff N1 or N2 is at most 127 |
| Windows.PcrDuplicates | src/retransmission.rs:240-255 | with both thresholds above 127, a run in which 128 different MSUs are delivered and then the first of them again |
| Windows.BasicWindowIsTight | src/retransmission.rs:172-206 | a bound on what is outstanding puts every Basic run in order iff it is at most 128 |
| Windows.PcrWindowIsTight | src/retransmission.rs:216-255 | for PCR iff the bound, N1 or N2 is at most 127 |
| Windows.WindowIsTight | src/retransmission.rs:349-356 | over both schemes iff it is at most 127 |
| Windows.BasicMistakes | src/retransmission.rs:192-206 | after 128 losses the 129th Basic MSU, a different one, is accepted in place of the first, with never more than 129 outstanding |
| Windows.BasicNotAlwaysInOrder | src/retransmission.rs:192-206 | hence Basic alone, which bounds nothing, does not guarantee order |
| Windows.FreshWindowIsTight | src/retransmission.rs:269-296 | a bound on what is outstanding keeps everything in flight and about to be sent in every Basic run unaccepted iff it is at most 66 |
| Windows.RequestedIff | src/retransmission.rs:349-366 | the sequence check asks for retransmission iff the index is 1 to 62 past the expected one, or the one before it, or aliases one of these |
| Windows.GapIsNoticedIff | src/retransmission.rs:349-371 | in every Basic run with at most 66 outstanding the next arrival is accepted iff expected, asked to be repeated iff 1 to 62 ahead, and otherwise changes nothing |
| Windows.LossesNoticedIff | src/retransmission.rs:350-366 | after n losses in a row, n from 1 to 128, the next arrival provokes a request iff n is at most 62 or is 127, and is accepted iff n is 128 |
| Handshake.AckIsExact | src/retransmission.rs:272-280 | an acknowledgement at most 64 ahead of the oldest entry releases exactly what was accepted |
| Handshake.ShakenMakesHeadExact | src/retransmission.rs:349-356 | with at most 128 outstanding the handshake makes a matching number mean a matching index |
| Handshake.ShakenKept | src/retransmission.rs:172-372 | every action keeps the handshake invariant while at most 128 are outstanding |
| Handshake.BasicHandshake | src/retransmission.rs:290-366 | in every Basic run with at most 128 outstanding the toggles made are at most one ahead of those seen, one ahead iff BIB ≠ FIB, and then a request is pending for an MSU that has been numbered |
| Handshake.SeenCountsSweeps | src/retransmission.rs:290-296 | in every such run a toggle is seen exactly when a sweep starts at the head of a nonempty buffer |
| Handshake.FreshRun | src/retransmission.rs:269-296 | in every Basic run with at most 66 outstanding nothing in flight or about to be sent has been accepted already |
| Recovery.NackStartsSweep | src/retransmission.rs:290-296 | on empty channels with BIB ≠ FIB, one acknowledgement makes freed equal accepted and starts the sweep at the missing MSU |
| Recovery.AckDuringSweep | src/retransmission.rs:281-288 | an acknowledgement during a sweep releases all accepted but steps the cursor back by one only |
| Recovery.SweepIsExact | src/retransmission.rs:172-190 | r loss-free rounds re-send exactly the r outstanding MSUs in order iff no acknowledgement is late; then they deliver all, otherwise fewer |
| Recovery.BasicRecovery | src/retransmission.rs:172-297 | from every stalled state with at most 64 outstanding that a Basic run with at most 128 reaches, one acknowledgement starts a sweep, and loss-free rounds, up to one for every MSU outstanding or pending, deliver one each iff none is late in the sweep |
| BasicProgress.BasicDeliversIff | src/retransmission.rs:172-372 | from every state at rest that a Basic run with at most 128 outstanding reaches, whatever is queued, some loss-free schedule delivers everything iff the state is not stuck |
| BasicProgress.StuckForever | src/retransmission.rs:172-372 | from a stuck state at rest no loss-free schedule delivers everything, and nothing more at all if no request is unseen and at most 128 MSUs are undelivered |
| Stranding.LateAckNeverRecovers | src/retransmission.rs:281-288 | a run of three MSUs and one loss after which the third is never delivered, whatever the schedule on a perfect line |
| Stranding.LateAckThenAnotherRecovers | src/retransmission.rs:358-366 | once a fourth is submitted some such schedule delivers all four |
| Stranding.DeafForever | src/retransmission.rs:361-366 | once the transmitter is past the MSU already asked for, no continuation with at most 128 outstanding delivers anything |
| Stranding.LostAgainNeverRecovers | src/retransmission.rs:361-366 | a run whose sweep loses its first unit, after which nothing is delivered while at most 128 are outstanding |
| PcrProgress.CycleProgress | src/retransmission.rs:216-263 | each loss-free PCR round lowers (undelivered, pending, distance of the cursor to its wrap) lexicographically |
| PcrProgress.QuietDrains | src/retransmission.rs:216-297 | with both thresholds at least 1 and one at most 64, some number of loss-free rounds delivers and releases everything |
| PcrProgress.PcrAlwaysDrains | src/retransmission.rs:216-297 | every reachable state with empty channels drains iff both thresholds are at least 1 and one is at most 64 |
| PcrProgress.LargeThresholdsStick | src/retransmission.rs:274-279 | a burst of 65 to 127 MSUs that the thresholds admit is delivered and never released |
| PcrProgress.ZeroThresholdNeverSends | src/retransmission.rs:217-220 | with a threshold of 0 no run ever numbers, sends or delivers an MSU |
| PcrProgress.ZeroThresholdSticks | src/retransmission.rs:217-220 | hence some reachable state never drains |
| Lossless.LosslessBasicNeverNacks | src/retransmission.rs:172-297 | without forward loss a Basic run with any number outstanding never toggles a bit or starts a sweep, and an empty forward channel means that everything sent was delivered |
| Monitor.Aerm.Restart | src/monitor.rs:49-52 | zero count and the given threshold |
| Monitor.Aerm.RecordError | src/monitor.rs:58-61 | one more error, saturating at the u32 limit; reports whether the threshold is reached |
| Monitor.Suerm.Reset | src/monitor.rs:106-110 | forgets count, leak position and latch, keeps T and D |
| Monitor.Suerm.Record | src/monitor.rs:114-127 | whole new state of one record, and the latched verdict |
| Monitor.RecordSu | src/monitor.rs:115-122 | the units since the last leak stay below D, so their u32 counter cannot overflow |
| LeakyBucket.WorstSuffixStep | src/monitor.rs:116-122 | one more unit moves the largest suffix excess by its error and its leak, cut off at zero |
| LeakyBucket.SuermClosedForm | src/monitor.rs:106-127 | after any history, failed iff some window up to now had at least T more errors than leaks; until saturation the count is the largest such excess over windows ending now |
| LeakyBucket.ShortHistoryIsExact | src/monitor.rs:114-127 | with fewer than 2^32 - 1 units since the reset the count is exactly that excess |
| SignalUnits.EncodeUnit | src/signal_unit.rs:267-300 | the buffer pushed octet by octet is the specified encoding, errors included |
| SignalUnits.EncodableIff | src/signal_unit.rs:267-294 | a unit encodes iff both numbers fit seven bits and an MSU body is at most 273 octets |
| SignalUnits.DecodeOfEncode | src/signal_unit.rs:244-371 | decoding an encoded unit gives it back iff it is not an MSU of fewer than two SIF octets |
| SignalUnits.EncodeOfDecode | src/signal_unit.rs:304-371 | an accepted octet string re-encodes to itself with spare bits and the second status octet zeroed, which decodes to the same unit |
| SignalUnits.EncodingsAreCanonical | src/signal_unit.rs:267-371 | the encodings of faithful units are exactly the accepted strings with nothing in the spare bits |
| SignalUnits.SameUnitIffSameCanonical | src/signal_unit.rs:304-371 | two accepted strings decode to the same unit iff they differ in spare bits and the second status octet only |
| SignalUnits.OctetsOf | src/signal_unit.rs:158-300 | an encodable unit octet by octet: BSN + 128·BIB, FSN + 128·FIB, the length indicator as a number, the status numbers 0 to 5, the SIO and SIF |
| SignalUnits.AcceptedIff | src/signal_unit.rs:304-371 | exactly which octet strings decode, by their length, the low six bits of the third octet and the low three of the status |
| LinkEngine.StepTimerDown | src/link.rs:187-196 | a running timer expires at one tick left or none |
| LinkEngine.Mtp2Link.constructor | src/link.rs:229-254 | a powered-off link with fresh controllers and monitors |
| LinkEngine.Mtp2Link.PollEvent | src/link.rs:262-264 | takes the oldest event, if any |
| LinkEngine.Mtp2Link.StartAlignment | src/link.rs:282-299 | out of service only: fresh sequence states (dropping what was queued), cleared conditions, T2 alone running |
| LinkEngine.Mtp2Link.StopLink | src/link.rs:302-307 | dark, timers stopped, out of service with its event |
| LinkEngine.Mtp2Link.SetEmergency | src/link.rs:310-312 | sets the effective emergency flag only |
| LinkEngine.Mtp2Link.LocalProcessorOutage | src/link.rs:315-325 | the outage flag and the two state moves |
| LinkEngine.Mtp2Link.LocalProcessorRecovered | src/link.rs:328-338 | the inverse moves, T1 restarted |
| LinkEngine.Mtp2Link.SetLocalBusy | src/link.rs:343-350 | sets the congestion flag only |
| LinkEngine.Mtp2Link.Submit | src/link.rs:355-362 | queues a body of at most 273 octets, refuses any other and changes nothing |
| LinkEngine.Mtp2Link.PollTransmit | src/link.rs:382-436 | the unit sent in each state, the polled frame in service, and T7 guarded |
| LinkEngine.Mtp2Link.HandleSu | src/link.rs:441-459 | whole effect of a received unit, SUERM first |
| LinkEngine.Mtp2Link.HandleCorruptedSu | src/link.rs:463-475 | whole effect of an errored unit on AERM or SUERM |
| LinkEngine.Mtp2Link.HandleLssu | src/link.rs:477-572 | whole effect of a status unit in each of the eight states |
| LinkEngine.Mtp2Link.HandleFisuOrMsu | src/link.rs:574-589 | whole effect of a fill-in or message unit |
| LinkEngine.Mtp2Link.ProcessInServiceSu | src/link.rs:593-624 | acknowledgement, end of the peer's conditions, sequence check |
| LinkEngine.Mtp2Link.BeginProving | src/link.rs:628-644 | period, threshold and attempt of a proving |
| LinkEngine.Mtp2Link.CompleteProving | src/link.rs:646-654 | ready or not ready by the local outage |
| LinkEngine.Mtp2Link.AbortProving | src/link.rs:656-665 | back to Aligned below the attempt limit, failure otherwise |
| LinkEngine.Mtp2Link.GoInService | src/link.rs:667-672 | T1 stopped, SUERM reset, in service with its event |
| LinkEngine.Mtp2Link.AbandonAlignment | src/link.rs:674-678 | timers stopped, out of service with the failure event |
| LinkEngine.Mtp2Link.GoOutOfService | src/link.rs:680-687 | timers and conditions cleared, out of service with the reason |
| LinkEngine.Mtp2Link.AdvanceTick | src/link.rs:692-726 | whole effect of a tick, the first expiry that finds its state ending it |
| LinkInvariants.StepKeeps | src/link.rs:262-726 | every operation from any state satisfying the invariants leads to one that does |
| LinkInvariants.TimersMatchState | src/link.rs:692-726 | in every reachable state T2, T3, T4 and T1 run iff in their state, T6 iff in service or outage with a busy peer, T7 iff in service or outage with MSUs outstanding |
| LinkInvariants.ExpiriesFindTheirState | src/link.rs:692-726 | so every expiry finds the state it guards |
| LinkInvariants.OutageMatchesState | src/link.rs:315-338 | ready and in service imply no local outage, not ready and processor outage imply one |
| LinkInvariants.GoodUnitNeverTripsSuerm | src/link.rs:441-450 | with T at least 1 a serving link is unlatched with count below T, and a good unit cannot fail it |
| EventLog.LogTellsSession | src/link.rs:302-687 | every run's log is accepted by the session automaton, and replaying it gives the session and peer conditions the link is in |
| EventLog.SensePrefix | src/link.rs:262-268 | the accepted logs are closed under prefixes |
| EventLog.SessionsAreSeparated | src/link.rs:667-687 | between two InService events there is an OutOfService event |
| Emission.PollIsSound | src/retransmission.rs:165-263 | what is polled has a 7-bit number and a queued MSU |
| Emission.EmissionsAreValid | src/link.rs:382-436 | fed 7-bit headers, every unit emitted in any run encodes, and a polled MSU goes out as an MSU: the fall-back is never taken |
| Emission.EmissionsSurviveTheLine | src/signal_unit.rs:267-371 | if every submitted MSU has two SIF octets or more, every emitted unit is the one decoded |
| ProvingPeriod.EnteringEffect | src/link.rs:628-644 | entering proving sets T4 and AERM from the emergency flag as it is then, SIE included |
| ProvingPeriod.CorruptedEffect | src/link.rs:463-475 | an errored unit in proving counts, and at the threshold leads to Aligned or out of service by the attempts made |
| ProvingPeriod.ReadyOnlyThroughProving | src/link.rs:646-654 | no operation makes a link ready except from proving or readiness |
| ProvingPeriod.ProvingIsSound | src/link.rs:628-654 | in every run a step leaves proving for readiness iff it is the tick that makes max(1, T4) since proving was last entered, and then fewer errors than the threshold were counted |
| ProvingPeriod.RetriesAreLimited | src/link.rs:656-665 | from one start at most max(0, attempts - 1) aborts lead back to Aligned |
| LinkBehaviour.EveryStepIsExpected | src/link.rs:262-726 | in every run each operation adds to the log exactly the events the observer expects, in order, and leads to the state the observer expects |
| LinkBehaviour.ErrorRateEndsServiceIff | src/link.rs:441-475 | in every run an operation raises OutOfService(SuermFailure) iff it is a unit heard or errored in service with which some window of this session's units, errored ones counted, has T more errors than leaks |
| LinkBehaviour.LogTellsWhatWasHeard | src/link.rs:541-616 | in every run replaying the log tells a congested peer iff a SIB was heard in service with no FISU or MSU after it, and an outage iff a SIPO was, the one that began service included |
| LinkBehaviour.StatusEndsService | src/link.rs:541-565 | with T at least 1, SIOS heard in service ends it with ReceivedSios, SIO, SIN and SIE with AlignmentLost, and SIPO and SIB do not end it |
| LinkBehaviour.AlignmentDeadlines | src/link.rs:692-708 | in every run T2, T3 and T1 fail the alignment exactly with the tick that makes max(1, period) ticks in their state |
| LinkBehaviour.ServiceDeadlines | src/link.rs:709-725 | in every run T6 ends service exactly with the tick that makes its period since the last SIB of a peer still congested, and otherwise T7 with the tick that makes its period since a FISU or MSU was heard or the first MSU became outstanding |
| LinkBehaviour.NothingOutlastsItsPeriod | src/link.rs:692-725 | so in every run no guarded state or condition outlasts its period |
| LinkUnits.SendsWhatIsTold | src/link.rs:382-436 | in every run: nothing iff out of service and not started; a status unit exactly in the states that tell one, with that status, SIB when congested in service; an MSU only when the observer finds nothing in its way, as polled and as queued; BSN and BIB of the receive side, FIB of the transmit side, and the last number given in every FISU and LSSU |
| LinkUnits.MsusOnlyWhenClear | src/link.rs:404-421 | in every run an MSU is sent only in service, without local congestion, when the log tells a peer neither congested nor out |
| LinkUnits.LinkIsTransmitRun | src/link.rs:355-624 | in every run the transmit side of a link is that of a bare run of what was queued since the last start, polled when an MSU may be sent and acknowledged by the units attended to |
| LinkUnits.ControllersAreDriven | src/link.rs:593-623 | in every run both sides of error correction change exactly with starts, submissions, polls, acknowledgements and the MSUs attended to outside a local outage |
| LinkUnits.HeldUntilTraffic | src/link.rs:525-616 | in every run a peer told to hold, or not in service, stays so until a FISU or MSU is heard |
| LinkUnits.CongestionStopsThePeer | src/link.rs:404-616 | once a congested end in service is heard by a peer in service, that peer reports the congestion unless it has, and sends no MSU until it hears a FISU or MSU, whatever else happens to it |
| Alignment.CycleRefinesPhase | src/link.rs:382-726 | hearing the peer's unit and one tick move a link as its alignment phase moves |
| Alignment.PairFollowsPhases | tests/integration.rs:327-338 | until service the pair is in the phases computed for it after every cycle |
| Alignment.AlignmentCompletes | tests/integration.rs:348-362 | when the timers fit both ends enter service in the cycle after the longer proving ends |
| Alignment.AlignmentFails | src/link.rs:693-708 | when they do not, neither end is ever in service on that schedule |
| Alignment.AlignmentCompletesIff | tests/integration.rs:327-362 | two fresh links started together over a lossless line reach service iff T3, T1 and the proving periods fit |
| Alignment.EmergencyNeverCompletes | src/link.rs:508-513 | on that schedule, if either asks for emergency alignment and both emergency periods are two ticks or more, neither is ever in service, and unless T3 expires both prove for ever |
| AlignmentAgreement.ServingOnlyByUnits | src/link.rs:525-529 | only a fill-in or message unit or SIPO heard in readiness takes a link into service |
| AlignmentAgreement.ServiceImpliesBothProved | src/link.rs:574-588 | in every run of two links over lossy channels, restarts included, an end in service implies that both have completed proving |
| Deliveries.TakenMsus | src/link.rs:593-624 | a unit taken adds to the reported MSUs exactly what the sequence check accepts |
| Deliveries.UntakenMsus | src/link.rs:441-589 | any other unit reports none |
| LinkDelivery.LinksDeliverExactlyOnce | src/link.rs:355-624 | two links, each started at most once, at most 127 outstanding under PCR or 128 under Basic: in every run the MSUs one end reports are a prefix of those queued at the other since its start, both ways |
| LinkDelivery.PcrLinksDeliverExactlyOnce | src/link.rs:355-624 | two PCR links with N1 or N2 at most 127 do so in every such run, with no assumption on what is outstanding |
| LinkWire.WiredLinksDeliverExactlyOnce | src/signal_unit.rs:267-371 | the same with every unit encoded by its sender and decoded by its hearer, MSUs too short to survive the line included |
| LinkWire.ShortMsuIsAStatus | src/signal_unit.rs:325-339 | an MSU of fewer than two SIF octets decodes as the one- or two-octet status unit that its SIO spells, or not at all |
| LinkWire.WiredMsuEndsServiceIff | src/link.rs:541-565 | in every wired run with T at least 1, an encoded MSU heard by an end in service takes it out of service iff it has fewer than two SIF octets and the low three bits of its SIO are 0 to 3 |
| Traffic.OpenExchanges | src/link.rs:382-726 | a cycle of an unobstructed link in service: one frame polled, one unit heard, the acknowledgement taken, T7 restarted, still unobstructed |
| Traffic.FlowStep | src/retransmission.rs:165-372 | one cycle of a direction that has lost nothing keeps all that was sent delivered and at most one MSU unacknowledged, and lessens its load |
| Traffic.CarryingCycles | tests/integration.rs:327-338 | after k lossless cycles the load of each end, two for every pending MSU and one for every unacknowledged one, is less by at least k or is zero |
| Traffic.StrandedPairStaysInService | src/link.rs:593-600 | a pair with one direction stuck is in service after any number of lossless cycles and has delivered nothing more that way |
| EndToEnd.AlignmentLeavesUnused | src/link.rs:477-672 | on that schedule alignment numbers and reports no MSU, and no congestion or remote outage holds when it ends |
| EndToEnd.QueuedMsusAreDelivered | tests/integration.rs:280-302 | two fresh links whose timers fit, once aligned, report all that is queued at the other end, whole and in order, within two cycles for every MSU, with nothing left in the queues and both in service |

## Left out

- Alignment.AlignmentCompletesIff: covers fresh links started together, stepped in lossless cycles
  without local operations; other interleavings and loss during alignment have the agreement theorem
  and `ProvingIsSound` only.
- Alignment.AlignmentFails: the same schedule only; what completing proving takes on any other is
  `ProvingIsSound`.
- Alignment.EmergencyNeverCompletes: the same schedule only.
- LinkDelivery.LinksDeliverExactlyOnce: assumes at most one start at each end, because a start
  discards both sequence states while units of the old session may still be in flight.
- LinkDelivery.PcrLinksDeliverExactlyOnce: assumes the same.
- LinkWire.WiredLinksDeliverExactlyOnce: assumes the same, and octets that arrive without error or not
  at all; octets that do not decode are dropped.
- Recovery.BasicRecovery: assumes no further loss and at most 64 outstanding; what further loss and
  late acknowledgements lead to is in `BasicProgress.dfy` and `Stranding.dfy`.
- BasicProgress.BasicDeliversIff: speaks of states with empty channels after runs with at most 128
  outstanding; beyond that delivery is not in order to begin with.
- EndToEnd.QueuedMsusAreDelivered: covers lossless cycles with nothing queued before service and no
  local operations after; its conditions on T, T7, thresholds and schemes are not shown necessary.
- Traffic.StrandedPairStaysInService: covers lossless cycles with at most 128 MSUs not delivered.
- ProvingPeriod.RetriesAreLimited: assumes that the u32 attempt counter has not wrapped; a debug
  build stops there instead.
- LinkUnits.SendsWhatIsTold: says the BSN modulo 128, because a link fed a header with a number above
  127 keeps that number; the codec never yields one.
- LinkUnits.CongestionStopsThePeer: assumes T at least 1 at the peer, because with T = 0 the first unit
  heard ends service (`ErrorRateEndsServiceIff`).
- LinkBehaviour.StatusEndsService: assumes the same.
- LeakyBucket.SuermClosedForm: the count is exact until it saturates at 2^32 - 1; the verdict is
  exact always.
- The six timers are one record in a single field, `last_acked` (written, never read) is absent, and
  queues are sequences without capacities. N1, N2 and cursors are unbounded where the source has
  `usize`.
- The bit masks of the codec are written as remainders of octets.
- Opening and closing local congestion are one method with a flag.
- Layer 1: flags, bit stuffing and CRC-16 are not in the repository either; a corrupted unit is a
  loss that the monitors are told of.
- `Display`, mnemonics, error texts, trivial accessors and default values: they carry no logic.
- `src/python.rs` and `python/`: type conversion around the same core.
- `benches/`, `scripts/` and `examples/leak_check.rs`: measurement only.
