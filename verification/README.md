# Myna: capture, model switching and renderer supervision, verified

Myna is a dictation service. This project is a Dafny model of four of its parts, with proofs about every
input, every run and every interleaving:

- **The capture pipeline** (`client/myna-audio`). A realtime data thread mixes stream buffers into a
  bounded FIFO and latches lost audio in atomics. A loop thread drains the FIFO, re-chunks it and feeds a
  bounded queue. A consumer reads the queue. The promise is *never silently drop*: all the audio arrives
  in order, or the stream ends with exactly one fault. `Session` interleaves the three
  wherever one touches what another can see (the two reads of `Drain::run`, the epoch read and the loss
  latch, the push and the health it publishes are separate steps). `Chunking` says which chunks come out,
  `Endings` which fault the stream ends with and exactly when with none, `Undisturbed` that a session left
  to itself does end clean, `Callbacks` which frames each report to the loss account speaks for, `Audit` what the account then says
  about the audio, `Refinement` ties the fine steps back to the methods they come from, and `Wakeup`
  interleaves the queue's mutex with its notify.
- **The loss account** (`Continuity`, `Ledger`, `Pace`): clock-expected minus delivered frames, reflected at a
  phase credit, confirmed by later audio, started over by stream states, clock domains and graph cycles.
- **Switching the model** (`Switch`, `Setup`): a transaction of privileged commands that may fail or be
  cancelled at any one, with a read-back and a restore.
- **The renderer supervisor** (`Host`): daemon presence, spawning, exits by generation, backoff, dormancy.
- **The measurement taps** (`Voice`, `HighPass`, `OffsetMedian`).

Objects the program updates in place are classes with its fields; each method is proved equal to a
specification function on the object's `View()`, and the run-level results are proved of those functions.
Time is in whole milliseconds (microseconds in the loss atomics), frames and levels are exact reals.
Products with an unbounded factor are written by repeated addition (`Prelude.Times`, `Prelude.Scaled`) and
proved to be products.

Three properties one would expect turned out not to hold, and are stated exactly:

- A switch plan does not always leave the selected model alone on Myna's plug. If the model is already the
  one connected the plan is empty, and strays stay (`Switch.PlanClearsStraysUnlessNoop`, both directions;
  `Switch.StraySurvivesNoop`, a machine). The comment at
  client/myna-config/src/active_backend.rs:220 says such a baseline has the selected backend alone
  connected; the code compares only the connected models, and the model follows the code.
- A clock domain that never changes still starts the loss account over if a graph-cycle change lands on a
  callback whose clock carries no rate: the domain is forgotten, so the next rated callback looks like a new
  domain and the gap before it is not charged (`Ledger.OneClockRestartsExactlyWhen`, both directions;
  `Ledger.RatelessCycleChangeForgivesAGap`, a run where ten seconds go by).

- Audio that came can still be called lost. A `process` callback whose clock cannot be read hands its audio
  over and reports nothing, so the account counts those frames as missing and not as evidence. A window's
  deficit is the true shortfall exactly when every clock in it was read
  (`Audit.DeficitIsShortfallAndUnread`); a loss is confirmed exactly when shortfall and unread frames
  together stay unexplained through a confirmation window (`Audit.LossExactlyWhenConfirmed`); and
  `FalseLoss.UnreadClockInventsALoss` is a run in which nothing is short and a loss is confirmed.

## Model

| member | source | states |
|---|---|---|
| `Session.HeardIsPrefixOfOffered` | client/myna-audio/src/native.rs:474-601 | In every interleaving of data thread, loop thread and consumer, the bytes received are a prefix of the mixed buffers in order. |
| `Session.CleanEndHeardEverything` | client/myna-audio/src/native.rs:1012-1038 | A stream that ends with no fault for a consumer that stayed brought all the audio but less than one frame; no loss was ever latched, and the last deficit is at most max(cycle, tolerance) plus the tolerance. |
| `Session.DrainWithLossTookEverything` | client/myna-audio/src/native.rs:581-601 | Once a drain that read a loss has taken its slots, the realtime ring is empty and every byte ever handed over is with the producer, wherever data-thread steps fell between the two reads. |
| `Session.FirstLossStays` | client/myna-audio/src/native.rs:474-521 | From any reachable session, no later run replaces the first loss or hands anything over after it. |
| `Session.HealthIsTheStreamsOutcome` | client/myna-audio/src/backend.rs:93-180 | Concluded with the consumer attached, health is faulted with e exactly when the stream's one fault is e, and ended exactly when there is none, for every order of overload, flush, finish and drop. |
| `Session.TerminalHealthStays` | client/myna-audio/src/backend.rs:133-143 | No run from a reachable session leaves a terminal health. |
| `Session.SessionStepKeeps` | client/myna-audio/src/native.rs:790-1026 | Every step of any thread keeps the session's invariant: bytes conserved across FIFO, hands, pending and queue; a loss-reading or final drain sees everything; health, once an overload is published, tells what the stream will. |
| `Endings.ConcludesExactlyWith` | client/myna-audio/src/native.rs:1018-1038 | In every run, after the final drain, the session concludes with the fault noted first, else the loss latched, else the deficit held; with none exactly when there is none of these. |
| `Endings.FaultExactlyWhen` | client/myna-audio/src/native.rs:1018-1038 | Once concluded, for a consumer that stayed: no fault exactly when nothing went wrong and every chunk was taken; an overload if a chunk was refused, else the session's own fault. |
| `Endings.EndedCleanExactlyWhen` | client/myna-audio/src/native.rs:1018-1038 | A stream that ran to its end for a consumer that stayed ended clean exactly then. |
| `Endings.HeldExactlyWhenUnexplained` | client/myna-audio/src/native.rs:312-321 | In every run without a loss a deficit is held exactly when the balance is past max(cycle, tolerance) plus the tolerance. |
| `Endings.HealthShowsCapture` | client/myna-audio/src/backend.rs:93-100 | In every run, until a fault, an end or an abort, health is capturing exactly once audio was pushed, and opening before. |
| `Undisturbed.StopEndsClean` | client/myna-audio/src/native.rs:1012-1026 | From every reachable session between polls with nothing wrong, nothing refused and room in the ring, quitting, draining, settling, concluding and polling end the stream clean. |
| `Undisturbed.PollsReachTheEnd` | client/myna-audio/src/ring.rs:136-156 | A concluded stream that raised nothing yields what is queued and then its end. |
| `Chunking.ReceivedIsFrontOfEmission` | client/myna-audio/src/backend.rs:93-124 | In every interleaving the chunks received are, one for one, the first of the producer's emission of the bytes moved so far. |
| `Chunking.CleanStreamIsTheEmission` | client/myna-audio/src/backend.rs:93-131 | A stream that ended clean is exactly the emission of all the audio offered, so its chunks depend on that audio and not on how it was split. |
| `Chunking.ReceivedChunksAreWhole` | client/myna-audio/src/source.rs:102-115 | Every chunk received is non-empty whole frames, and none but the last is short of the chunk size. |
| `Callbacks.EveryRunTracked` | client/myna-audio/src/native.rs:531-562 | In every run each report names exactly the frames of its own callback's buffers, and frames lie between two reports exactly when a clock read failed there. |
| `Callbacks.ReportedExactlyWhenRead` | client/myna-audio/src/native.rs:537-560 | In every run the frames reported are at most those offered, with equality exactly when every callback with frames read its clock. |
| `Callbacks.ArrivedIsReadAudio` | client/myna-audio/src/native.rs:537-560 | What the account is told arrived in a window is the audio offered there less the unread. |
| `Callbacks.UnreadExactlyWhenAClockFailed` | client/myna-audio/src/native.rs:554-560 | A window has unread audio exactly when a callback with frames in it could not read the clock. |
| `Audit.DeficitIsShortfallAndUnread` | client/myna-audio/src/native.rs:502-560 | A window's deficit is the clock's lead over the audio offered plus the unread frames; the two agree exactly when every clock in the window was read. |
| `Audit.LossExactlyWhenConfirmed` | client/myna-audio/src/native.rs:271-310 | In every run a report confirms a loss exactly when, from some earlier report of its account on, some window's shortfall and unread frames stayed above credit and tolerance while the audio read filled the confirmation window. |
| `Audit.ConfirmedLossIsRealButForUnread` | client/myna-audio/src/native.rs:271-310 | A confirmed loss names a window short by at least the loss less the window's unread frames, so by the loss itself when every clock of the account was read. |
| `FalseLoss.UnreadClockInventsALoss` | client/myna-audio/src/native.rs:554-560 | A concrete run: five callbacks, the second without a clock, all audio handed over, no window short, a loss latched. |
| `Audit.EveryRunIsAudited` | client/myna-audio/src/native.rs:502-521 | In every run the account is the one its reports make, and with no loss latched no report ever confirmed one. |
| `Audit.LostExactlyWhen` | client/myna-audio/src/native.rs:474-521 | In every run a loss is latched exactly when a buffer was refused or a report confirmed one, and it is the overflow or the first one confirmed, to the microsecond. |
| `Audit.CleanEndMissedNothing` | client/myna-audio/src/native.rs:502-560 | In a session that ended clean no window, of any account, had the clock ahead of the audio offered by more than its credit and the tolerance through a confirmation window of audio read. |
| `Audit.CleanEndLeavesNoGap` | client/myna-audio/src/native.rs:312-321 | At a clean end, over every window of the last account up to the last report, the clock's lead over the audio offered, unread frames added, is at most the window's credit plus max(cycle, tolerance) plus the tolerance. |
| `Refinement.CallbackIsProcess` | client/myna-audio/src/native.rs:531-562 | Deliveries, clock read and account, undisturbed, are one `process` callback. |
| `Refinement.EmitsArePush` | client/myna-audio/src/backend.rs:100-104 | The session's emit steps, undisturbed, leave pending bytes, ring and health exactly as the producer's push loop does. |
| `Refinement.ConclusionIsConclude` | client/myna-audio/src/backend.rs:116-131 | Flush, publish and finish, undisturbed, are the producer's `conclude`. |
| `Refinement.DrainIsRun` | client/myna-audio/src/native.rs:581-601 | The drain's steps, undisturbed, empty the realtime ring into one producer push and carry the loss read. |
| `Refinement.ReturnIsPoll` | client/myna-audio/src/native.rs:835-852 | A session's return from a drain notes exactly the ending the poll timer does. |
| `Refinement.StateChangeIsStreamState` | client/myna-audio/src/native.rs:928-944 | A state change notes exactly the ending the stream's listener does. |
| `Ledger.BalanceIsLargestUncoveredDeficit` | client/myna-audio/src/native.rs:285-297 | The balance in closed form: the largest, over all windows of the account ending now, of clock-expected minus delivered frames less the credit where the window begins; no smaller and no larger. |
| `Ledger.NothingForgiven` | client/myna-audio/src/native.rs:290-293 | For every window, the balance is at least the window's deficit less max(cycle, tolerance): no surplus pays for more than one cycle of loss. |
| `Ledger.NothingInvented` | client/myna-audio/src/native.rs:290-293 | Some window's deficit, less its credit, is the balance. |
| `Ledger.CycleIsSmallestAdvance` | client/myna-audio/src/native.rs:285-289 | The cycle behind the credit is the smallest positive clock advance since the account opened. |
| `Ledger.EvidenceIsArrivedAudio` | client/myna-audio/src/native.rs:294-309 | The evidence against a deficit is exactly the audio delivered since the unbroken stretch over the tolerance opened. |
| `Ledger.VerdictIsOnTheStretch` | client/myna-audio/src/native.rs:294-310 | A loss is reported exactly when the stretch over the tolerance began earlier and the audio since its opening fills the confirmation window. |
| `Ledger.LossExactlyWhenUnrepaid` | client/myna-audio/src/native.rs:294-310 | A loss is reported at n exactly when for some earlier k of the same account the balance was over the tolerance from k through n and the frames after k fill the confirmation window; it is the balance in seconds. |
| `Ledger.MissingAudioIsReported` | client/myna-audio/src/native.rs:271-310 | A window short past credit and tolerance that stays so through a confirmation window of audio is reported, at no less than its size. |
| `Ledger.ReportedLossIsReal` | client/myna-audio/src/native.rs:271-310 | A reported loss names a window of its account whose clock ran at least that far ahead of the frames reported. |
| `Ledger.OneDisagreementStanding` | client/myna-audio/src/native.rs:246-266 | One disagreement stands exactly when a past out-of-band delivery, not itself a change, was followed only by empty ones. |
| `Ledger.CycleChangeTakesTwoInARow` | client/myna-audio/src/native.rs:240-266 | The graph cycle counts as changed exactly on the second out-of-band non-empty delivery with no in-band one between. |
| `Ledger.OnlyTwoDisagreementsForgive` | client/myna-audio/src/native.rs:271-283 | Within one stream state and clock domain a delivery opens a new account exactly as the second disagreeing one in a row; any other leaves the deficit standing. |
| `Ledger.GaugeIsOfDeliveries` | client/myna-audio/src/native.rs:233-266 | No restart of any kind touches the cycle measurement: it is a function of the deliveries alone. |
| `Ledger.DomainIsRemembered` | client/myna-audio/src/native.rs:274-283 | Under one clock, the domain is known exactly when some report named it and no cycle change has landed on a rateless report since. |
| `Ledger.OneClockRestartsExactlyWhen` | client/myna-audio/src/native.rs:274-283 | Under one clock, a rated report starts the account over for its domain exactly when the domain is not known in that sense. |
| `Ledger.RatelessCycleChangeForgivesAGap` | client/myna-audio/src/native.rs:274-283 | A concrete run under one clock and one stream state in which ten seconds of clock go uncharged. |
| `Ledger.RunKeepsLedger` | client/myna-audio/src/native.rs:502-515 | Every sequence of reports and state changes makes a ledger, so all of the above holds of every run. |
| `Ledger.AccountOpensExactlyWhen` | client/myna-audio/src/native.rs:271-283 | An account opens exactly on the first report, a changed stream state, a changed graph cycle, or a clock other than the one remembered. |
| `Ledger.ReferenceIsTheLastChange` | client/myna-audio/src/native.rs:246-266 | Deliveries are held against the size of the last cycle change, or of the first that was not empty. |
| `Ledger.BandIsAQuarter` | client/myna-audio/src/native.rs:173-177 | In band means within five to four, either way. |
| `Pace.ExpectedIsTicksAtRate` | client/myna-audio/src/native.rs:285 | A clock advance, times the clock's denominator, is its ticks times the numerator times the capture's rate. |
| `Pace.ClockedIsTicksAtRate` | client/myna-audio/src/native.rs:271-285 | The same over every window of every run under one clock. |
| `Pace.SteadyTicksAreTheDifference` | client/myna-audio/src/native.rs:271-285 | Of a rated clock that never falls back, the ticks counted are the difference of its readings. |
| `Pace.PaceIsDeficitWithin` | client/myna-audio/src/native.rs:271-297 | A window's frames are within an allowance of the clock's seconds at the capture's rate exactly when the account's deficit over it is. |
| `Pace.KeepingPaceLosesNothing` | client/myna-audio/src/native.rs:271-321 | A run that keeps pace with its clock, within the tolerance, is never called lost and never leaves a deficit to hold. |
| `Continuity.Charge` | client/myna-audio/src/native.rs:285-309 | Charging keeps the account valid: the balance at or above minus the credit, evidence held exactly while over the tolerance. |
| `Continuity.Continuity.Restart` | client/myna-audio/src/native.rs:233-238 | In place, forgets the balance and the last tick and nothing else. |
| `Continuity.Continuity.Measure` | client/myna-audio/src/native.rs:246-266 | In place, the measurement and verdict of the specification whose run-level meaning `CycleChangeTakesTwoInARow` gives. |
| `Continuity.Continuity.Delivered` | client/myna-audio/src/native.rs:271-310 | In place, the account and verdict of the specification whose closed form the ledger gives. |
| `Continuity.Continuity.Outstanding` | client/myna-audio/src/native.rs:317-321 | Reports a deficit exactly past max(cycle, tolerance) plus the tolerance. |
| `DataPath.Micros` | client/myna-audio/src/native.rs:404-410 | No duration encodes as "none" or as "overflow". |
| `DataPath.CodesKeepLosses` | client/myna-audio/src/native.rs:372-410 | Latched and held losses read back as the kind they were, a duration to the microsecond. |
| `DataPath.DeliveredWholeOrNotAtAll` | client/myna-audio/src/native.rs:474-499 | A buffer enters the FIFO whole, or not at all and a loss is latched; a loss already latched stays. |
| `DataPath.AccountedLatchesTheVerdict` | client/myna-audio/src/native.rs:502-521 | A loss is latched exactly when the report confirms one, as its microseconds; otherwise exactly the standing deficit is held. |
| `DataPath.DataPath.Lose` | client/myna-audio/src/native.rs:517-521 | In place: only the first loss is latched. |
| `DataPath.DataPath.Deliver` | client/myna-audio/src/native.rs:474-499 | In place, the delivery of the specification, and the whole frames in the buffer. |
| `DataPath.DataPath.Charge` | client/myna-audio/src/native.rs:502-508 | In place: restarts the account when the epoch moved, then charges the report. |
| `DataPath.DataPath.Settle` | client/myna-audio/src/native.rs:508-514 | In place: latches a confirmed loss, else holds the outstanding deficit. |
| `DataPath.DataPath.Account` | client/myna-audio/src/native.rs:502-515 | In place: a confirmed loss is latched, otherwise the outstanding deficit is held for the loop thread. |
| `DataPath.DataPath.Process` | client/myna-audio/src/native.rs:531-562 | In place, by its loop: every non-empty buffer delivered in order and their frames accounted, if there are any and the clock can be read. |
| `Mix.MixedFillsReservation` | client/myna-audio/src/native.rs:474-497 | The downmix yields exactly the bytes reserved for it, for every buffer and selection. |
| `Mix.ChannelBuckets` | client/myna-audio/src/native.rs:1090-1096 | Bucket b holds, in order, the selected channels whose position is b modulo the output channels. |
| `Mix.NewMix` | client/myna-audio/src/native.rs:425-436 | Selects exactly with a non-empty selection and at least one output channel; otherwise passes through. |
| `Mix.FrameMixAt` | client/myna-audio/src/native.rs:1102-1120 | Decoding output channel b of a mixed frame gives that bucket's average. |
| `Mix.DownmixFrameAt` | client/myna-audio/src/native.rs:1102-1120 | Output frame k of a whole buffer is input frame k mixed. |
| `Mix.DownmixAverages` | client/myna-audio/src/native.rs:1102-1120 | On bytes, for every frame and channel of a whole buffer: the output, low byte first, is the sum of the bucket's in-range samples over their number, rounded toward zero, and silence if there are none. |
| `Mix.SingleChannelIsCopied` | client/myna-audio/src/native.rs:1102-1120 | A bucket of one channel in range copies that channel's two bytes in every frame. |
| `Mix.IdentityKeepsEveryFrame` | client/myna-audio/src/native.rs:1102-1120 | The identity selection reproduces every whole frame. |
| `Mix.InOrderIsDealtAsIdentity` | client/myna-audio/src/native.rs:1090-1096 | Channels in order over as many outputs are dealt as the identity. |
| `Mix.DecodeIsLittleEndian` | client/myna-audio/src/native.rs:1112 | A sample is congruent to its low byte plus 256 times its high byte modulo 65536, and encodes back to them. |
| `Mix.MixedKeepsFrames` | client/myna-audio/src/native.rs:438-444 | A mixed buffer holds as many frames as the stream buffer it came from. |
| `Mix.TruncatedInHull` | client/myna-audio/src/native.rs:1109-1117 | The truncated average lies between any bounds of its samples, so it always fits one. |
| `Ring.EveryHistory` | client/myna-audio/src/ring.rs:82-165 | For every sequence of operations: queued bytes equal the queue's sum within the bound; received is a prefix of accepted, accepted of pushed; chunks, at most one fault, then the end for good; a consumer that stayed to the end got every accepted chunk and exactly the raised fault. |
| `Ring.PushOverloadsExactlyWhen` | client/myna-audio/src/ring.rs:82-106 | After every history, a push into a live ring overloads it exactly when accepted less received bytes plus the chunk pass the bound, naming the seconds of the most it ever held; otherwise the chunk is queued; a finished ring is unchanged. |
| `Ring.PeakIsHighWater` | client/myna-audio/src/ring.rs:88-104 | The peak is the largest the queue has been. |
| `Ring.StepKeeps` | client/myna-audio/src/ring.rs:82-165 | Every operation keeps that history invariant. |
| `Ring.Ring.Push` | client/myna-audio/src/ring.rs:82-106 | In place: refused when terminated, enqueued within the bound, otherwise latches the overload it returns. |
| `Ring.Ring.Finish` | client/myna-audio/src/ring.rs:109-121 | In place: the first finish ends the stream, with its fault unless the consumer left. |
| `Ring.Ring.Poll` | client/myna-audio/src/ring.rs:136-156 | In place, one pass of `next`: a chunk, else the fault once, else the end, else waiting. |
| `Ring.Ring.Close` | client/myna-audio/src/ring.rs:159-165 | In place: discards the queue and any fault. |
| `Wakeup.StepKeepsWakeup` | client/myna-audio/src/ring.rs:82-156 | Every atomic step keeps: a parked consumer with something available has a permit or a notify owed. |
| `Wakeup.ParkedConsumerWakes` | client/myna-audio/src/ring.rs:82-156 | In every interleaving, such a consumer wakes by just those steps and its poll yields an item. |
| `Producer.SplitIndependent` | client/myna-audio/src/backend.rs:93-106 | What a producer fed any buffers emits and holds back is a function of their concatenation. |
| `Producer.SameAudioSameChunks` | client/myna-audio/src/backend.rs:93-106 | Two splits of the same audio emit the same chunks and hold back the same bytes. |
| `Producer.ChunksRejoin` | client/myna-audio/src/backend.rs:100-104 | The chunks and the rest rejoin to the audio. |
| `Producer.ChunksAreFull` | client/myna-audio/src/backend.rs:100-104 | Every chunk cut off the front is exactly the chunk size. |
| `Producer.EmissionIsTheAudio` | client/myna-audio/src/backend.rs:116-124 | What a concluded producer emitted is the audio less under one frame. |
| `Producer.EmissionShape` | client/myna-audio/src/backend.rs:93-124 | Every chunk is non-empty whole frames, and all but the last are full. |
| `Producer.Sizes` | client/myna-audio/src/source.rs:102-115 | Chunks are whole frames within a frame of the duration asked; an empty ring so bounded accepts any chunk the producer makes. |
| `Producer.Producer.Publish` | client/myna-audio/src/backend.rs:133-143 | In place: health advances unless terminal. |
| `Producer.Producer.Emit` | client/myna-audio/src/backend.rs:145-158 | In place: the chunk is pushed and an overload published. |
| `Producer.Producer.Push` | client/myna-audio/src/backend.rs:93-106 | In place, by its loop: exactly the full chunks of pending plus data go to the ring and the rest is held; nothing once terminated. |
| `Producer.Producer.Conclude` | client/myna-audio/src/backend.rs:116-131 | In place, once: whole frames flushed, the outcome published, the stream finished with it. |
| `Supervisor.DeadlineFollowsProgress` | client/myna-audio/src/native.rs:112-158 | In every run the deadline is the last progress plus the silence timeout, and phase and wiring are what the events say. |
| `Supervisor.SilentPollEndsAtDeadline` | client/myna-audio/src/native.rs:137-158 | An unstopped, silent poll ends an open capture exactly when the deadline has passed, as the fault for how far it got. |
| `Supervisor.PollEndsExactly` | client/myna-audio/src/native.rs:831-853 | Every poll of an open run: clean if the consumer is gone, else the fault of the loss read, else the stop's verdict, else the deadline's, else none. |
| `Supervisor.OtherEventsEndExactly` | client/myna-audio/src/native.rs:928-944 | A stream failure ends an open run as an unavailable device; linking and acceptance end nothing. |
| `Supervisor.DeliveryNeverTimesOut` | client/myna-audio/src/native.rs:831-853 | A poll that moved audio never ends an unstopped, lossless capture. |
| `Supervisor.StopAlwaysEnds` | client/myna-audio/src/native.rs:831-853 | A stop ends the capture whatever the deadline and whatever the poll found: clean exactly when the consumer was gone, or no loss was read and the stream was accepted or audio flowed; otherwise a loss read is the fault. |
| `Supervisor.FirstEndingWins` | client/myna-audio/src/native.rs:811-819 | No later event changes an ending. |
| `Supervisor.CleanNeedsProof` | client/myna-audio/src/native.rs:112-158 | A clean ending means the graph accepted the stream or a non-empty buffer arrived. |
| `Supervisor.Supervisor.Tick` | client/myna-audio/src/native.rs:137-158 | The decision of the specification the run-level results are about. |
| `Supervisor.CaptureLoop.Link` | client/myna-audio/src/native.rs:122-125 | In place: linking is progress, so the deadline starts over. |
| `Supervisor.CaptureLoop.Poll` | client/myna-audio/src/native.rs:831-853 | In place, one poll: progress, then abort, loss and deadline in that order of precedence. |
| `Supervisor.CaptureLoop.StateChanged` | client/myna-audio/src/native.rs:928-944 | In place: an accepted stream is wired, a failed one ends the capture. |
| `Voice.HysteresisIsExact` | client/myna-audio/src/voice.rs:61-95 | At any floor the silence threshold is exactly 0.6 of the speech threshold. |
| `Voice.StaysInHull` | client/myna-audio/src/voice.rs:61-95 | Floor and smoother never leave the hull of their inputs. |
| `Voice.QuietInputIsNeverVoice` | client/myna-audio/src/voice.rs:61-95 | Input never above the smallest speech threshold never starts or marks voice. |
| `Voice.VoiceEndsIffRunLasted` | client/myna-audio/src/voice.rs:61-95 | Some contiguous active run of at least the sustain window ends at a frame exactly when the current run has lasted that long. |
| `Voice.LastVoiceMarksSustainedRun` | client/myna-audio/src/voice.rs:61-113 | `last_voice` is the capture time at the end of the last frame ending a sustained run, present exactly when there is one. |
| `Voice.NoiseNeverAboveSpeech` | client/myna-audio/src/voice.rs:61-113 | The noise floor is below every smoothed level heard, and at most the speech level once voice is heard. |
| `Voice.SmootherSettles` | client/myna-audio/src/voice.rs:61-95 | Under a steady level the smoother's distance shrinks to 0.7 of itself with every frame. |
| `Voice.FloorFallsFast` | client/myna-audio/src/voice.rs:61-95 | Under a steady level below it the floor's distance shrinks to 0.8 of itself with every frame. |
| `Voice.FloorClimbsSlowly` | client/myna-audio/src/voice.rs:61-95 | Under a steady level above it, within ten times its base, to 0.995 of itself. |
| `Voice.FloorIgnoresSpeech` | client/myna-audio/src/voice.rs:61-95 | A steady level beyond that leaves the floor where it is. |
| `Voice.StartedExactlyWhen` | client/myna-audio/src/voice.rs:61-95 | Voice has started exactly when some smoothed level was over the speech threshold of its frame. |
| `Voice.ThresholdIsFiveFloors` | client/myna-audio/src/voice.rs:61-95 | The speech threshold is five times the floor, within its limits. |
| `Voice.LoudInputIsVoice` | client/myna-audio/src/voice.rs:61-113 | Input always above the highest threshold is voice from the moment it has lasted. |
| `Voice.LevelsAreExtremes` | client/myna-audio/src/voice.rs:61-113 | The noise floor is the quietest smoothed level, the speech level the loudest that ended voice. |
| `Voice.VoiceTracker.Observe` | client/myna-audio/src/voice.rs:61-95 | In place, the tracker of the specification those results are about. |
| `HighPass.OffsetNeverPasses` | client/myna-audio/src/voice.rs:127-144 | A constant offset on any channel leaves every filtered sample unchanged. |
| `HighPass.StepDecays` | client/myna-audio/src/voice.rs:137-144 | From any state a step to a steady level passes at once, scaled by the pole, and decays by the pole with every sample. |
| `HighPass.FreshChannelStartsAtRest` | client/myna-audio/src/voice.rs:137-144 | A fresh channel gives nothing for a steady input. |
| `HighPass.ChannelsAreIndependent` | client/myna-audio/src/voice.rs:137-144 | Interleaved channels filter as separate mono streams, states and samples. |
| `HighPass.FilteredInPieces` | client/myna-audio/src/voice.rs:137-144 | Filtering in pieces cut at whole rounds of the channels is filtering the whole. |
| `HighPass.LevelsAreOfOneSignal` | client/myna-audio/src/backend.rs:280-310 | Frame by frame the levels are the mean squares of the one signal the filter makes of all the samples. |
| `HighPass.FrameIsWholeRounds` | client/myna-audio/src/backend.rs:284-287 | A voice frame is a positive number of whole rounds of the channels. |
| `HighPass.ByteLevelsAreLevels` | client/myna-audio/src/backend.rs:288-309 | A chunk's levels, cut and decoded from its bytes, are those of its samples, and so have all the properties above. |
| `HighPass.FreshFilterHidesOffset` | client/myna-audio/src/backend.rs:280-310 | From a fresh filter any offset leaves every frame level unchanged. |
| `HighPass.LevelsChunkAnywhere` | client/myna-audio/src/backend.rs:280-310 | Frame levels are the same for any chunking at voice-frame boundaries. |
| `HighPass.HighPass.Filter` | client/myna-audio/src/voice.rs:137-144 | In place: the slot of the channel, modulo the channels, overwritten, one sample out. |
| `HighPass.HighPass.FrameLevels` | client/myna-audio/src/backend.rs:280-310 | In place, by its loops: the mean square and duration of every voice frame of an S16 chunk, and nothing for any other width. |
| `OffsetMedian.MeanHasBin` | client/myna-audio/src/backend.rs:239-249 | No mean of S16 samples is filed outside the bins. |
| `OffsetMedian.MajorityHoldsTheMedian` | client/myna-audio/src/backend.rs:208-262 | With more than half of the sample weight in bins lo to hi the median bin is there, whatever the rest and in any order. |
| `OffsetMedian.MedianBinIsUnique` | client/myna-audio/src/backend.rs:251-261 | At most one bin is the weighted median. |
| `OffsetMedian.AverageWithinMeans` | client/myna-audio/src/backend.rs:251-261 | A bin's average lies within the means of its chunks. |
| `OffsetMedian.AverageStaysInBin` | client/myna-audio/src/backend.rs:251-261 | A bin's average rounds to that bin. |
| `OffsetMedian.OffsetMedian.Observe` | client/myna-audio/src/backend.rs:239-249 | In place: files the chunk in its bin, keeping weights and sums those of the chunks filed. |
| `OffsetMedian.OffsetMedian.Median` | client/myna-audio/src/backend.rs:251-261 | The result lies in the weighted-median bin and within the means of that bin's chunks; zero before any audio. |
| `Switch.PlanReachesSelected` | client/myna-config/src/active_backend.rs:32-58 | A plan's commands take any baseline to exactly the selected model connected, with no strays if it has any commands. |
| `Switch.PlanClearsStraysUnlessNoop` | client/myna-config/src/active_backend.rs:32-58 | Afterwards only the selected model feeds Myna if and only if it was not already the one connected beside a stray. |
| `Switch.StraySurvivesNoop` | client/myna-config/src/active_backend.rs:32-58 | A concrete machine whose stray an empty plan leaves connected. |
| `Switch.StoppedSwitchLeavesAtMostOne` | client/myna-config/src/active_backend.rs:32-58 | Stopped after any command, a switch away from one model leaves that one, none or the selected one. |
| `Switch.ReadKeepsConnected` | client/myna-config/src/domain.rs:313-345 | A snapshot's active state lists exactly the models that feed Myna. |
| `Switch.Machine.Execute` | client/myna-config/src/adapters/system_configurator.rs:84-131 | Runs the commands in order up to the one that fails, and reports just those. |
| `Switch.Machine.Settle` | client/myna-config/src/active_backend.rs:549-573 | A cancellation settles as cancelled, any other error as failed, with the connections as read back. |
| `Switch.Machine.Restore` | client/myna-config/src/active_backend.rs:306-375 | Touches nothing unless the read-back shows none connected and the previous model still listed; then that model is back, or the outcome says why not; a cancelled outcome never carries a failed restore; commands listed are those that ran. |
| `Switch.Machine.ReadBack` | client/myna-config/src/active_backend.rs:247-263 | A completed switch is applied exactly when the connections read back show the selected model, and, unless others meddled, it is. |
| `Switch.Machine.Recover` | client/myna-config/src/active_backend.rs:264-268 | A stopped switch from one model, read back and with no restore failing, never ends with none while that model is listed and, unmeddled, ends on it or on the selected one. |
| `Switch.Machine.Commit` | client/myna-config/src/active_backend.rs:247-270 | A completed run is applied exactly when the read-back shows the selected model; a stopped one is recovered and names its error. |
| `Switch.Machine.ExecuteSwitch` | client/myna-config/src/active_backend.rs:203-270 | The whole transaction: what it reports is how the machine is and what ran; stale, empty, cancelled and busy switches are reported as such and run nothing; applied means the selected model and a restart last; a stopped one names what stopped it and, unmeddled, leaves the previous model or the selected one, unless it says the restore failed. |
| `Setup.WaitForSnapd` | client/myna-config/src/active_backend.rs:519-547 | With a positive interval at most ceiling(timeout / interval) + 1 reads; each outcome with the reads that led to it; without an interval it never reports having waited. |
| `Setup.CeilingRoundsUp` | client/myna-config/src/active_backend.rs:529-546 | The bound is the timeout over the interval, rounded up. |
| `Setup.Choose` | client/myna-config/src/active_backend.rs:487-497 | The first model of the preferred snap, else the first listed, none only when there is none. |
| `Setup.SwitchOn` | client/myna-config/src/active_backend.rs:487-518 | Every success ran a Myna restart last, on the preferred model or else the first listed; with nothing in the way it succeeds; the no-op arm is unreachable. |
| `Setup.RestartOrSwitch` | client/myna-config/src/active_backend.rs:476-518 | With one model connected only Myna is restarted, and it succeeds exactly when that does; otherwise a model is switched on. |
| `Setup.SetUp` | client/myna-config/src/active_backend.rs:469-518 | The way being free, all of that by connections read again after a wait. |
| `Setup.EnsureBackendActive` | client/myna-config/src/active_backend.rs:449-519 | It waits as `Setup.WaitForSnapd` does; a wait that is cancelled, times out or fails is the error and runs no command; every success follows a Myna restart, on the model already connected, else on the preferred one or the first listed; with nothing in the way it succeeds. |
| `Host.PlanRestart` | extensions/myna-shell/respawn.js:37-64 | A plan never both restarts and goes dormant; a restart waits a positive delay within the cap. |
| `Host.EveryRunKeeps` | extensions/myna-shell/host.js:189-263 | Every run keeps the supervisor's invariant over renderer, timer, registration, waits and budget. |
| `Host.NeverTwoRenderers` | extensions/myna-shell/host.js:189-263 | In every reachable state at most one of renderer and pending restart exists; dormant or disabled means neither, and not registered. |
| `Host.StaleExitIsIgnored` | extensions/myna-shell/host.js:361-378 | The exit wait of any generation but the running one changes nothing but itself. |
| `Host.StretchIsBoundedBackoff` | extensions/myna-shell/host.js:697-751 | Since the last daemon appearance or healthy run, at most five restarts were scheduled, 500 ms doubling to 8 s. |
| `Host.SixthEarlyExitIsFinal` | extensions/myna-shell/host.js:697-744 | With the budget spent, the next early exit leaves the host dormant with nothing scheduled. |
| `Host.RestartLaunches` | extensions/myna-shell/host.js:718-744 | In every reachable state a due restart with the daemon there leads to what its launch leads to, a new generation running with its own wait and launch time if it works; without the daemon to neither renderer nor timer. |
| `Host.AppearanceLaunches` | extensions/myna-shell/host.js:189-202 | A daemon appearing to an enabled host at rest gets a renderer, the whole budget and the registration; otherwise nothing changes. |
| `Host.ExitReschedules` | extensions/myna-shell/host.js:361-378 | The running renderer's exit schedules the next backoff, 500 ms doubling to 8 s, after fewer than five failures, and dormancy after five; a healthy run starts the count over. |
| `Host.NothingOutlivesTheDaemon` | extensions/myna-shell/host.js:204-256 | A vanished daemon or a disabled host leaves no renderer, timer, registration or wait that could act. |
| `Host.PillRegistration.Register` | extensions/myna-shell/registration.js:34-39 | In place: registered once told. |
| `Host.PillRegistration.Unregister` | extensions/myna-shell/registration.js:42-47 | In place: never registered afterwards, and the daemon told exactly if it was. |
| `Host.PillRegistration.Forget` | extensions/myna-shell/registration.js:50-52 | In place: never registered afterwards, and nobody told. |
| `Host.OverlayHost.GiveUp` | extensions/myna-shell/host.js:260-263 | In place: dormant, and withdrawn. |
| `Host.OverlayHost.ScheduleRestart` | extensions/myna-shell/host.js:718-744 | In place: the plan's restart or dormancy. |
| `Host.OverlayHost.Spawn` | extensions/myna-shell/host.js:278-359 | In place: a new generation, or the failure's consequence. |
| `Host.OverlayHost.StopRenderer` | extensions/myna-shell/host.js:218-256 | In place: no timer, no renderer, its wait cancelled. |
| `Host.OverlayHost.OnDaemonAppeared` | extensions/myna-shell/host.js:189-202 | In place: from rest, a fresh budget, registration and launch. |
| `Host.OverlayHost.OnDaemonVanished` | extensions/myna-shell/host.js:204-210 | In place: forgotten and stopped. |
| `Host.OverlayHost.OnWaitResolved` | extensions/myna-shell/host.js:361-378 | In place: an uncancelled exit schedules, a cancelled one does not. |
| `Host.OverlayHost.OnTimer` | extensions/myna-shell/host.js:718-744 | In place: launches if the daemon is there. |
| `Host.OverlayHost.Disable` | extensions/myna-shell/host.js:142-146 | In place: withdrawn and stopped for good. |

## Left out

- PipeWire objects, discovery and format negotiation, and the internals of `rtrb`: the realtime ring is a bounded FIFO with all-or-nothing writes, and early returns of `capture_session` and a dropped producer are one step that concludes with an arbitrary fault, at any time the loop thread is between polls.
- `Drain::run` and the teardown are steps of the session rather than a class, so that other threads' steps can fall between their reads.
- In the session the supervisor's tick is an arbitrary ending, which allows more runs than the program has; `Supervisor` says which ones occur.
- Rounding of f64 and f32, square roots and logarithms: arithmetic is over exact reals, frame levels are mean squares, and the high-pass pole is any real. `snr.rs` is not part of this model.
- Overflow of byte counts, tick counts and durations in their machine widths, except the microsecond codes of the loss atomics.
- Statistics published with each chunk (peak, clipping, captured time), message wording, translations and logging.
- HighPass.HighPass.FrameLevels: gives mean squares where the program gives their roots.
- Setup.WaitForSnapd: a wait without an interval that finds nothing but changes never returns, and is excluded; so is it for `Setup.EnsureBackendActive`.
- Switch.Machine.ExecuteSwitch: snapd, polkit and pkexec are a script of failures; a failed command changes nothing, and what others do to the machine happens between the commands and the read-back.
- `ActiveBackendController` and the operation coordinator: a token and a cell around the transaction.
- Window adoption, hover, overview and accessibility in the extension, and `enable()`, which is the supervisor's initial state.
- `client/myna-config/src/app.rs`, `apply_plan.rs`, playback, device listing, conversion, placement and path resolution: user interface and process execution, or mappings with no state to keep an invariant over.
