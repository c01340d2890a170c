# Synchronized multi-stream capture: verified model

One capture timeline is shared by several encoded streams. This project models the platform-free core that keeps
those streams aligned, and proves what it promises: every file and every replay save holds the same frames of every
stream, between one common keyframe and one common end.

The state machines are written twice, as the program runs them (classes that update their fields and loop over
their stores) and as step functions or step relations on plain values. Each method is proved equal to its step; the
whole-run theorems quantify over every sequence of steps from the initial state.

| file | part |
|---|---|
| `packets.dfy`, `packet_buffer.dfy`, `decode_order.dfy` | packets in CTS order, the byte-bounded store, the stable decode-order sort |
| `common_range.dfy` | the common-start and common-prefix selectors |
| `recording_*.dfy`, `packet_sink.dfy` | the two-stream recording transaction |
| `mkv_writer.dfy`, `mkv_sink.dfy`, `mkv_window.dfy` | timestamp rescaling, the packet writer, the DTS reorder stage |
| `live_recorder_model.dfy`, `live_recorder.dfy` | the N-stream live recorder: queue, worker, election, lockstep writing |
| `live_recorder_schedule.dfy`, `_outcome`, `_meaning` | independence of the schedule, and what success means |
| `live_recorder_rounds.dfy`, `_verdict`, `_draft` | what every completed recording writes, and exactly when it fails |
| `live_recorder_files.dfy` | the elected start and what every file holds, in every run |
| `live_recorder_witness.dfy`, `_reorder` | pairs of runs whose outcomes differ by the schedule |
| `capture_ring.dfy`, `capture_session.dfy`, `capture_streams.dfy` | the replay ring under one byte budget, its session, and what is known of each stream |
| `replay_snapshot.dfy`, `replay_save.dfy` | the snapshot selector, remuxing and writing a save |
| `encoders.dfy`, `capture_configuration.dfy`, `encoder_demand.dfy` | encoder calls, stream numbering, the create, start and release passes |
| `control_model.dfy`, `capture_control.dfy` | the two-consumer control engine, as functions and as the program runs it |
| `control_theorems.dfy`, `control_witness.dfy` | what holds over every sequence of its commands |
| `control_status.dfy` | which status each command returns, exactly |

The outside world appears as data. A sink or a container writer is a list of accepted packets plus a `budget`, the
number of calls the library will still accept, so every theorem covers a failure at any call. The timebase the
container settles on is an arbitrary `tick`. Encoders carry the list of answers they will give, so creation and
activation may fail at any call. A thread is a sequence of atomic steps at the lock boundaries, and the schedule is a
parameter.

## Findings

Where the code differs from its documentation or from an expected property, the model follows the code and states
exactly when the property holds.

- `PollStart` never does anything: the election has already been tried at the last packet, and "still waiting"
  counts as success before the deadline is looked at. `StartTimeout` is unreachable (`PollDoesNothing`,
  `NeverTimesOut`).
- The cadence is compared only inside one selection, so a gap that both streams share is committed across, against
  `docs/architecture.md` lines 392-399 (`SharedGapIsCommitted`). The committed frames keep the cadence exactly if
  every commit continues the previous one on cadence (`CommittedOnGrid`); over any run with a configured cadence, they
  keep it exactly if they do where one commit follows another (`CadenceExactly`).
- `RangeMismatch` is unreachable from `SubmitPacket`, and unreachable altogether with a configured cadence. With an
  inferred cadence `CompleteDrain` can report it, exactly if the step is inferred late and the chosen run breaks it
  (`DrainOutcome`, `LateInferenceMismatches`).
- `Stopped` is left for `Failed` by a later `Start` or `SubmitPacket` (`SubmitKeepsInv`); only `Failed` is absorbing.
- A stop requested before the start is elected is only noted: the session still starts and runs until it is asked again
  (`DrainsOnRequest`).
- `ValidateCommonPacketRange` can never report an invalid packet order: it sorts before it looks.
- The outcome of every completed live recording is known in closed form (`RunExactly`), whatever was delivered in
  whatever order: there is a draft, what it would write if no file refused a packet, and the recording fails to write
  exactly if some file does not take its part of the draft (`Fits`). Otherwise the files hold the draft.
- For streams whose CTS values increase, the schedule matters through one thing only: a codec header that arrives
  after the start could be elected without it (`CompletedRun`, `ScheduleIndependence`). Two complete runs of the same
  streams, one of which succeeds while the other cannot open its files, show it (`LateHeaderChangesOutcome`).
- For streams in decode order, whose CTS values need not increase, the order of delivery is a second cause. The live
  recorder writes in rounds of equal CTS but keeps each stream's DTS. The same frames are recorded completely when
  the streams are delivered in step, and fail to write when one stream comes before the other (`ReorderedRuns`). A
  file takes its part exactly if the DTS values, in the ticks of the file, never decrease in the order of writing
  (`Fits`, `FlushRefusedExactly`, `ReorderedFails`).
- Closing fails, besides a refused trailer, exactly if some frame written lies below the start or above the last frame
  written, as when the last round is not the greatest CTS (`AllEnd` in `RunExactly`, `ReorderedRuns`).
- The DTS watermark of a sink does not by itself make late packets impossible, against `docs/architecture.md` lines
  384-386 (`LatePacketFails`). It does as long as no packet comes a full safety window of decode time after one that
  decodes later (`WindowedIsInOrder`). In any run, a flush that the library would take fails exactly if a packet due
  is, in file ticks, below the last one written (`RunFlushesExactly`).
- A snapshot walks the first stream only. Other slices may hold extra frames; all slices have one CTS list exactly
  if they do not (`EqualSlicesExactly`, `ExtraFrameIsSaved`). `no-common-range` is unreachable.
- A save subtracts the DTS origin in raw ticks, so a stream that changes its timebase can make the writer's DTS-order
  check fire (`MixedTimebaseFails`). It fires exactly if the muxed DTS values decrease somewhere (`WriteExactly`,
  `SliceSaves`, `RingSnapshotSaves`); with one timebase per stream it cannot (`OneTimebaseSaves`).
- Capture ids are bytes. Registration succeeds for 1 to 255 enabled streams; at 256 the counter wraps to zero and is
  taken for an empty configuration (`RegisterStreams`).
- Streams are found by identity. Every lookup finds the stream it is made for exactly if no stream shares the
  identity of an enabled one (`LookupsAgreeExactly`). Otherwise the release pass can stop an encoder in use: a
  disabled stream with the identity of a recorded one releases its encoder (`SharedIdentityStopsEncoder`). The pass
  is safe exactly if no lookup finds a stream that needs more than the one it is made for (`ReleaseIsSafeExactly`).
- A start that fails half way while the other consumer is on leaves the encoders active that it started
  (`LeftoverRun` is such a run). It leaves none over exactly if both consumers were off or it started none
  (`FailedStartExactly`); over a run, encoders are left over exactly if some were before or a failed start added one
  since a consumer last came or went (`LeftoverExactly`). `StopReplay` during a save leaves the stored result as it
  was.

## Model

| member | source | states |
|---|---|---|
| DecodeOrder.DecodeSortIsStable | src/sync/common-packet-range.cpp:127-135 | the sort is ordered by (DTS, PTS), a permutation, and keeps ties in input order |
| DecodeOrder.StableSortUnique | src/sync/common-packet-range.cpp:127-135 | a stable sort is determined by its input, so any correct library sort gives this result |
| DecodeOrder.SortForDecodeOrder | src/sync/common-packet-range.cpp:127-135 | the in-place sort meets that specification |
| PacketBuffer.PushKeepsStore | src/recording/encoded-packet-buffer.cpp:9-24 | a push keeps the store sorted and its byte count exact, within the bound, and the peak is the greatest byte count so far; only a retained packet changes it |
| PacketBuffer.DiscardKeepsStore | src/recording/encoded-packet-buffer.cpp:31-37 | discarding keeps the store sound and leaves exactly the packets from the CTS on |
| PacketBuffer.EncodedPacketBuffer.Push | src/recording/encoded-packet-buffer.cpp:9-24 | the outcome by precedence: missing timing, repeated CTS, capacity, retained; and the whole new store |
| PacketBuffer.EncodedPacketBuffer.DiscardBefore | src/recording/encoded-packet-buffer.cpp:31-37 | the erasing loop leaves the suffix and its byte count |
| PacketBuffer.EncodedPacketBuffer.SnapshotThrough | src/recording/encoded-packet-buffer.cpp:58-67 | the ordered packets at or below the CTS |
| PacketBuffer.EncodedPacketBuffer.SetCapacityBytes | src/recording/encoded-packet-buffer.cpp:85-91 | a limit below the held bytes is refused and changes nothing |
| CommonRange.SelectCommonPrefixEnd | src/sync/common-packet-range.cpp:54-88 | the two-index scan returns the last CTS of the longest common on-cadence prefix from the start, cut at the bound |
| CommonRange.PrefixEndMonotone | src/sync/common-packet-range.cpp:54-88 | raising the bound never loses or lowers the result |
| CommonRange.PrefixEndIdempotent | src/sync/common-packet-range.cpp:54-88 | selecting again with the result as the bound selects it again |
| CommonRange.PrefixAgrees | src/sync/common-packet-range.cpp:54-88 | up to the result both streams hold exactly the same CTS values, on cadence |
| CommonRange.SelectCommonStart | src/sync/common-packet-range.cpp:31-42 | the least CTS from the requested start that is a keyframe in both streams, none exactly if there is none |
| CommonRange.ValidateCommonPacketRange | src/sync/common-packet-range.cpp:90-115 | accepts exactly if both streams hold the same CTS values in the range; otherwise counts the missing ones |
| CommonRange.SelectPackets | src/sync/common-packet-range.cpp:117-125 | the packets of the range, in CTS order |
| RecordingInvariant.FlushAccepts | src/recording/synchronized-recording-session.cpp:234-258 | the second selection and both containment scans accept whatever the first selection chose |
| RecordingInvariant.FlushKeepsLive | src/recording/synchronized-recording-session.cpp:227-297 | a flush fails exactly if a sink does not take its batch and the commit; otherwise it extends both sinks by the same CTS values, each batch in stable decode order, and leaves both stores consistent |
| RecordingInvariant.NothingLeft | src/recording/synchronized-recording-session.cpp:210-225 | after a flush nothing below the watermark is left to commit, unless the cadence breaks right there |
| RecordingInvariant.StableFlushKeepsInv | src/recording/synchronized-recording-session.cpp:210-225 | a running flush fails exactly if it has something to commit and a sink does not take the batch and its commit; otherwise the transaction invariant is kept. It never reports a range mismatch |
| RecordingTheorems.EstablishKeepsInv | src/recording/synchronized-recording-session.cpp:182-208 | the election waits while no common keyframe exists; otherwise it starts at the least one, or fails exactly if a store exceeds the tail capacity, a sink does not open, or a sink does not take the first batch and its commit, in this order |
| RecordingTheorems.SubmitKeepsInv | src/recording/synchronized-recording-session.cpp:44-94 | a submission keeps the transaction invariant and fails if and only if one of its causes holds, and with the first: wrong state, late packet, missing timing, a CTS accepted before, store capacity, and what a start or a flush can fail by |
| RecordingTheorems.DrainOutcome | src/recording/synchronized-recording-session.cpp:129-157 | a drain fails if and only if one of its causes holds, and with the first: a missing range, a broken cadence, a sink that does not take the batch and its commit, a sink that does not take the end; otherwise both sinks are finalized at one CTS |
| RecordingTheorems.ReselectUnderStep | src/recording/synchronized-recording-session.cpp:234-239 | selecting a chosen prefix again under another step succeeds exactly if the prefix keeps that cadence |
| RecordingTheorems.FirstIsCommon | src/sync/common-packet-range.cpp:68-88 | a selection is non-empty exactly if both stores begin with one CTS below the bound: neither the last commit nor the cadence matters |
| RecordingTheorems.RunKeepsInv | src/recording/synchronized-recording-session.cpp:21-180 | the transaction invariant holds after every sequence of calls |
| RecordingTheorems.Transaction | src/recording/synchronized-recording-session.cpp:227-297 | in every run that has not failed, both sinks hold the same CTS set without repeats, all that either stream accepted from the start through the last commit; once stopped, both were finalized there |
| RecordingTheorems.PairedSinks | src/recording/synchronized-recording-session.cpp:260-294 | both sinks hold the same CTS values, the start and the last commit among them |
| RecordingTheorems.RecordedExactly | src/recording/synchronized-recording-session.cpp:260-287 | a packet is in the sink, once, exactly if it was accepted in the committed range |
| RecordingOrder.CommitOrder | src/recording/synchronized-recording-session.cpp:260-287 | in every run that has not failed there is one increasing list of commits, and each sink was written in one batch per commit, which is a stable decode-order sort of exactly the packets accepted between the commits |
| RecordingStates.OfferedIsWritten | src/recording/synchronized-recording-session.cpp:44-94 | in terms of the calls alone: in every run that has not failed, the packets written for a stream are exactly those submitted for it with a CTS from the start through the last commit |
| RecordingStates.AcceptedExactly | src/recording/synchronized-recording-session.cpp:44-81 | in every such run a packet was accepted if and only if some call submitted it, not below the start known then |
| RecordingStates.StartIsLeast | src/recording/synchronized-recording-session.cpp:182-191 | in every run with a start, it is the least CTS from the requested one that both streams accepted as a keyframe, whatever was accepted later; while starting there is none |
| RecordingStates.StartedOnce | src/recording/synchronized-recording-session.cpp:21-29 | a session that is no longer idle and has not failed was asked to start exactly once, and with this CTS |
| RecordingStates.LastRequestCounts | src/recording/synchronized-recording-session.cpp:111-127 | in every run the stop CTS is that of the last request made while starting or running; no request made while draining moves it |
| RecordingStates.DrainsOnRequest | src/recording/synchronized-recording-session.cpp:111-127 | a session that drains or has stopped left the running phase by a request, whose CTS is the stop; a request made before the start ends nothing |
| RecordingStates.DrainEnds | src/recording/synchronized-recording-session.cpp:141-156 | a drain that succeeds ends at the common run it finds from the last commit to the stop, or else at the last commit |
| RecordingStates.StepAbides | src/recording/synchronized-recording-session.cpp:21-180 | every call from every reachable state: the state it moves to, the requests, the start and the cadence it keeps, the packets it takes, and which calls are out of place |
| RecordingStates.FailureAbortsBoth | src/recording/synchronized-recording-session.cpp:364-374 | in every run a session has failed if and only if it names a reason, and exactly then both sinks are aborted |
| RecordingStates.MemoryBound | src/recording/synchronized-recording-session.cpp:192-196 | in every run each store holds no more bytes than the pre-roll capacity before the start and the tail capacity after it, and nothing once stopped |
| RecordingStates.InferenceExactly | src/recording/synchronized-recording-session.cpp:299-328 | a cadence is inferred if and only if in both stores the first two packets from the start lie apart by distances that differ by at most one; it is the smaller one, and both distances are on it |
| RecordingTheorems.PollDoesNothing | src/recording/synchronized-recording-session.cpp:96-109 | `PollStart` changes no reachable state |
| RecordingTheorems.NeverTimesOut | src/recording/synchronized-recording-session.cpp:96-109 | no run ends in `StartTimeout` |
| RecordingTheorems.StepFailure | src/recording/synchronized-recording-session.cpp:21-162 | which call can add which failure, and under which condition |
| RecordingTheorems.NoMismatchWithCadence | src/recording/synchronized-recording-session.cpp:227-258 | with a configured step no run ends in `RangeMismatch` |
| RecordingTheorems.WatermarkSafety | src/recording/synchronized-recording-session.cpp:330-343 | the last commit stays a full safety window behind both streams |
| RecordingTheorems.NoLatePacketInWindow | src/recording/synchronized-recording-session.cpp:52-57 | if every packet arrives above the slower stream's maximum less the safety window, no run ends in `LatePacket` |
| RecordingTail.BoundedTail | src/recording/synchronized-recording-session.cpp:210-225 | on a regular timeline with one stream at most d packets ahead, each store holds at most d + safety/step + 1 packets, whatever the length of the run |
| RecordingTail.CommittedOnGrid | src/sync/common-packet-range.cpp:75-82 | after a flush the committed frames keep the cadence if and only if they did before and the batch continues the last commit on cadence |
| RecordingTail.BreaksAreSeams | src/recording/synchronized-recording-session.cpp:21-180 | with a configured cadence, in every run that has not failed, two committed neighbours off the cadence belong to two different commits |
| RecordingTail.CadenceExactly | src/recording/synchronized-recording-session.cpp:21-180 | over every such run, the committed frames keep the cadence if and only if they do at every seam between two commits |
| RecordingWitness.SharedGapIsCommitted | src/sync/common-packet-range.cpp:68-88 | a run with a configured cadence that commits across a gap both streams share |
| RecordingWitness.LateInferenceMismatches | src/recording/synchronized-recording-session.cpp:141-156 | a run without a configured cadence whose drain ends in `RangeMismatch` |
| RecordingSession.SynchronizedRecordingSession.SubmitPacket | src/recording/synchronized-recording-session.cpp:44-94 | the method performs exactly the submission step, failures and dropped early packets included |
| RecordingSession.SynchronizedRecordingSession.FlushThrough | src/recording/synchronized-recording-session.cpp:227-297 | selection, containment scans, sorting, writing and discarding amount to the flush step |
| RecordingSession.SynchronizedRecordingSession.EstablishCommonStart | src/recording/synchronized-recording-session.cpp:182-208 | the election step, opening both sinks or aborting them |
| RecordingSession.SynchronizedRecordingSession.InferSourceCtsStep | src/recording/synchronized-recording-session.cpp:299-328 | the inferred step is the smaller of the first distances if they differ by at most one |
| RecordingSession.SynchronizedRecordingSession.RunningWatermark | src/recording/synchronized-recording-session.cpp:330-343 | the watermark, absent below the safety window or the start |
| RecordingSession.SynchronizedRecordingSession.RequestStop | src/recording/synchronized-recording-session.cpp:111-127 | the stop step in each of the six states |
| RecordingSession.SynchronizedRecordingSession.CompleteDrain | src/recording/synchronized-recording-session.cpp:129-157 | the drain step |
| RecordingSession.SynchronizedRecordingSession.FinalizeAt | src/recording/synchronized-recording-session.cpp:351-362 | both sinks finalized at one CTS, or both aborted |
| RecordingMkv.CommittedRangeFinalizes | src/muxing/mkv-packet-writer.cpp:230-280 | an MKV sink that was given the packets of a lane in any batches, none late and none refused, finalizes at the last commit exactly if the library takes every packet and the trailer |
| MkvWriter.RescaleMonotone | src/muxing/mkv-packet-writer.cpp:118-119 | rescaling to the nearest tick is monotone |
| MkvWriter.RescaleNearest | src/muxing/mkv-packet-writer.cpp:118-119 | rescaling yields the nearest tick, halves away from zero, and a tick with that property is the result |
| MkvWriter.CountedFromFirst | src/muxing/mkv-packet-writer.cpp:102-119 | times count from the smaller timestamp of the first packet: neither of its times is negative, one is zero, and later packets move nothing |
| MkvWriter.WriteInOrder | src/muxing/mkv-packet-writer.cpp:102-154 | a packet in timebase and decode order is written unless the library refuses, and the CTS bookkeeping stays exact |
| MkvWriter.WriteSorted | src/muxing/mkv-packet-writer.cpp:102-154 | a DTS-sorted batch is written completely or up to a library refusal; the DTS-order check never fires |
| MkvWriter.WriteExactly | src/muxing/mkv-packet-writer.cpp:102-154 | a writer in any healthy state takes a list of usable packets if and only if the library takes them all and their DTS values in container ticks never decrease, the last written one included; what it is then, and which error stops it otherwise |
| MkvWriter.MkvPacketWriter.Write | src/muxing/mkv-packet-writer.cpp:102-154 | the method performs the write step: origin, rescaling, order check, library, bookkeeping |
| MkvWriter.MkvPacketWriter.Finalize | src/muxing/mkv-packet-writer.cpp:156-177 | the trailer and the reported range |
| MkvSink.SortSplits | src/muxing/mkv-packet-writer.cpp:302-326 | sorting a list is sorting its part below any DTS and then the rest |
| MkvSink.OfferKeepsStreaming | src/muxing/mkv-packet-writer.cpp:230-248 | a packet above the used watermark keeps the streaming invariant |
| MkvSink.CommitKeepsStreaming | src/muxing/mkv-packet-writer.cpp:250-264 | a windowed flush extends the one sorted output or fails in the library |
| MkvSink.StreamingSortIsBatchSort | src/muxing/mkv-packet-writer.cpp:302-326 | if no packet is late, all flushes up to finalization concatenate to one stable sort of everything written, and the only possible error is the library's |
| MkvSink.WindowedIsInOrder | src/muxing/mkv-packet-writer.cpp:230-264 | no packet is late in any run in which none comes a full safety window of decode time after one that decodes later |
| MkvSink.RunFlushesExactly | src/muxing/mkv-packet-writer.cpp:302-326 | in every run, late packets or not, a flush succeeds if and only if the library takes what is due and nothing due is, in file ticks, below the last packet written |
| MkvWindow.CommitExactly | src/muxing/mkv-packet-writer.cpp:250-264 | in every run in order, a commit that succeeds has written exactly the packets that decode at least the configured window, to the nearest tick, before the newest one, and everything else waits |
| MkvWindow.RunWithinCapacity | src/muxing/mkv-packet-writer.cpp:230-248 | in every run the byte count is that of the packets that wait, within the capacity |
| MkvWindow.RefusedExactly | src/muxing/mkv-packet-writer.cpp:230-248 | a packet is refused exactly if it is empty, does not fit beside what waits, or has another timebase than the packets before it; otherwise it waits behind them |
| MkvSink.LatePacketFails | src/muxing/mkv-packet-writer.cpp:230-326 | a run with a late packet in which the DTS check fires |
| MkvSink.FinalizeAcceptsRange | src/muxing/mkv-packet-writer.cpp:266-280 | given the packets of the range, finalization succeeds exactly if the library accepts what is pending and the trailer |
| MkvSink.RunFinalizes | src/muxing/mkv-packet-writer.cpp:230-280 | a whole run over the packets of a range, none late and none refused, finalizes exactly if the library takes all of them and the trailer |
| MkvSink.MkvPacketSink.FlushPendingThroughDts | src/muxing/mkv-packet-writer.cpp:302-326 | dividing, sorting and writing amount to the flush step |
| MkvSink.MkvPacketSink.CommitThrough | src/muxing/mkv-packet-writer.cpp:250-264 | the watermark from the greatest DTS and the safety window, with its guard against underflow |
| MkvSink.MkvPacketSink.Write | src/muxing/mkv-packet-writer.cpp:230-248 | capacity and timebase refusals, and the pending packets after acceptance |
| LiveRecorderSchedule.FlushInsert | src/recording/synchronized-recording-consumer.cpp:208-237 | flushing, adding a fresh packet and flushing again is adding it first and flushing once |
| LiveRecorderSchedule.StreamingIsBatch | src/recording/synchronized-recording-consumer.cpp:110-147 | processing packet by packet is equivalent to placing everything and settling once |
| LiveRecorderOutcome.RunInStep | src/recording/synchronized-recording-consumer.cpp:66-121 | in every schedule the queue loses nothing and keeps the order of what was offered before the stop |
| LiveRecorderOutcome.OpenFailsExactly | src/recording/synchronized-recording-consumer.cpp:169-206 | an elected start fails to open if and only if the configuration or the library of some stream refuses |
| LiveRecorderOutcome.OutcomeExactly | src/recording/synchronized-recording-consumer.cpp:110-206 | the outcome is that of placing all packets first if and only if no codec header comes too late, or there is a start and some stream cannot be opened anyway |
| LiveRecorderOutcome.CompletedRun | src/recording/synchronized-recording-consumer.cpp:110-167 | the same equivalence for every completed schedule |
| LiveRecorderOutcome.ScheduleIndependence | src/recording/synchronized-recording-consumer.cpp:110-275 | two completed recordings of the same per-stream sequences with increasing CTS values, no overflow and no late header, end with the same files, packet by packet, and the same outcome |
| LiveRecorderMeaning.RunSound | src/recording/synchronized-recording-consumer.cpp:110-147 | in every run the files are in lockstep and every packet is pending, written, older than the start, or a repetition |
| LiveRecorderMeaning.SuccessIsComplete | src/recording/synchronized-recording-consumer.cpp:208-275 | success means one CTS list in all files, spanning exactly start to end, and every offered packet was written, dropped as older than the start at election, or repeated the CTS of such a packet |
| LiveRecorderFiles.ElectionExactly | src/recording/synchronized-recording-consumer.cpp:169-184 | the elected start is a CTS at which every stream has a keyframe, and at each smaller one some stream lacks it or holds another kind of frame; nothing is elected exactly if there is no such CTS |
| LiveRecorderFiles.RunStarts | src/recording/synchronized-recording-consumer.cpp:169-206 | in every run a recording starts at the first CTS at which, of what had been delivered, every stream had a keyframe, and does not start while there is none |
| LiveRecorderFiles.RunFiles | src/recording/synchronized-recording-consumer.cpp:169-237 | in every run, failed or not, in any order of delivery: every file holds only packets its stream offered, each as it is to be recorded, and begins with a keyframe at the start with DTS zero |
| LiveRecorderFiles.OutputRecords | src/recording/synchronized-recording-consumer.cpp:222-233 | a recorded packet presents at its CTS less the start, to within half a tick, decodes at its own DTS less that of the first packet, and is otherwise unchanged |
| LiveRecorderRounds.RoundsAreShared | src/recording/synchronized-recording-consumer.cpp:208-221 | the rounds of one flush are exactly the CTS values that all streams share without a hole, in increasing order |
| LiveRecorderRounds.FlushExactly | src/recording/synchronized-recording-consumer.cpp:208-237 | a flush succeeds if and only if every file takes all its packets of the rounds in order, and then just these leave the maps |
| LiveRecorderRounds.CommittedIsShared | src/recording/synchronized-recording-consumer.cpp:169-237 | what is committed from a start are exactly the shared CTS values from there on, the start first |
| LiveRecorderVerdict.PlanExactly | src/muxing/mkv-packet-writer.cpp:102-154 | a file takes its packets if and only if all are usable, the library takes them, and their DTS values in file ticks never decrease along the CTS; then it holds exactly these |
| LiveRecorderVerdict.LeftoversExactly | src/recording/synchronized-recording-consumer.cpp:154-163 | the final drain leaves nothing over if and only if all streams hold the same CTS values from the start on |
| LiveRecorderVerdict.BatchExactly | src/recording/synchronized-recording-consumer.cpp:149-275 | the outcome with every packet in place, by the first obstacle in order: no common keyframe, a stream that cannot be opened, a file that refuses its packets, streams that disagree, a trailer the library refuses; otherwise success over the shared CTS values |
| LiveRecorderVerdict.InPlaceExactly | src/recording/synchronized-recording-consumer.cpp:122-131 | what is in place are exactly the offered packets |
| LiveRecorderVerdict.RecordingExactly | src/recording/synchronized-recording-consumer.cpp:66-275 | the case of streams with increasing CTS values within the bounds: every completed run ends with that outcome over what was offered, independent of the schedule, or fails to open if a header came too late; the files hold exactly the shared CTS values unless one refused |
| LiveRecorderDraft.RunFollows | src/recording/synchronized-recording-consumer.cpp:110-237 | in every run, whatever was delivered in whatever order: the recording has failed to write if and only if some file does not take its part of the draft; otherwise it is the draft |
| LiveRecorderDraft.FitsExactly | src/muxing/mkv-packet-writer.cpp:102-154 | a fresh file takes its part if and only if every packet is usable, the library takes the header and all of them, and their DTS values in file ticks never decrease in the order of writing; then it holds exactly these |
| LiveRecorderDraft.RunDraft | src/recording/synchronized-recording-consumer.cpp:169-237 | all files are to receive the same CTS values, the start first and the end last |
| LiveRecorderDraft.RunExactly | src/recording/synchronized-recording-consumer.cpp:66-275 | every completed recording, whatever was delivered in whatever order: the outcome by the first obstacle (a file that does not take its part, overflow or a failed open, no start, frames left over, a frame outside the range or a refused trailer) or success; unless a file refused, the files hold exactly the draft |
| LiveRecorderDraft.FlushRefusedExactly | src/recording/synchronized-recording-consumer.cpp:208-237 | in every state a started recording can reach, a flush fails if and only if the packets of some stream's rounds are not all usable, exceed what the library takes, or do not continue in file ticks what its file holds |
| LiveRecorderDraft.ReorderedFails | src/recording/synchronized-recording-consumer.cpp:222-233 | every completed run fails to write in whose draft a DTS, in file ticks, is smaller at a later place of a stream than at an earlier one |
| LiveRecorderVerdict.FewNeverOverflow | src/recording/synchronized-recording-consumer.cpp:133-140 | no more packets than the bound never overflow the pending maps |
| LiveRecorderWitness.ScheduleCompletes | src/recording/synchronized-recording-consumer.cpp:66-121 | offering everything, stopping and running the worker once per packet and once more completes every recording within the bounds |
| LiveRecorderWitness.LateHeaderChangesOutcome | src/recording/synchronized-recording-consumer.cpp:126-131 | two complete runs that offer the same packets of each stream in the same order: one records both streams, the other fails to open its files |
| LiveRecorderReorder.ReorderedRuns | src/recording/synchronized-recording-consumer.cpp:208-262 | three complete runs over frames in decode order, headers in place: in step, the recording is complete although the DTS decreases along the CTS; without the last frame, closing fails; the same packets stream by stream, writing fails |
| LiveRecorder.SynchronizedRecordingConsumer.OnPacket | src/recording/synchronized-recording-consumer.cpp:66-87 | the producer step, with the queue bound and the result it stores at once on overflow |
| LiveRecorder.SynchronizedRecordingConsumer.EstablishCommonStart | src/recording/synchronized-recording-consumer.cpp:169-206 | the election step over the pending maps |
| LiveRecorder.SynchronizedRecordingConsumer.FlushCommonPrefix | src/recording/synchronized-recording-consumer.cpp:208-237 | the lockstep writing loop |
| LiveRecorder.SynchronizedRecordingConsumer.Work | src/recording/synchronized-recording-consumer.cpp:110-167 | one turn of the worker, or its final drain |
| LiveRecorder.SynchronizedRecordingConsumer.Finalize | src/recording/synchronized-recording-consumer.cpp:239-275 | closing the writers against the common range; an earlier failure keeps its result, without a range |
| CaptureRing.EvictToCapacity | src/capture/synchronized-capture-session.cpp:47-77 | what survives is every stream above the least common cutoff that fits the budget, from its first keyframe on; every packet lost is counted, and the loop ends |
| CaptureRing.LeastCutoffMonotone | src/capture/synchronized-capture-session.cpp:52-68 | a larger budget never evicts more |
| CaptureRing.EvictionDetermined | src/capture/synchronized-capture-session.cpp:47-77 | the eviction relation determines the result |
| CaptureRing.EvictedFits | src/capture/synchronized-capture-session.cpp:47-77 | afterwards the shared budget holds and every history starts at a keyframe |
| CaptureRing.EraseThrough | src/capture/synchronized-capture-session.cpp:63-67 | erasing from the front leaves the packets above the CTS and exact bytes |
| CaptureSession.NextKeepsRing | src/capture/synchronized-capture-session.cpp:119-278 | every command keeps the ring invariant |
| CaptureSession.RunKeepsRing | src/capture/synchronized-capture-session.cpp:119-278 | in all runs: byte counters equal payload sums, the budget holds between calls, histories start at keyframes, and retained packets are held, evicted or cleared |
| CaptureSession.WatermarkNeverDecreases | src/capture/synchronized-capture-session.cpp:266-278 | across any commands that neither add a stream nor switch retention off, the common watermark never decreases or disappears |
| CaptureSession.HistoryHasNoHoles | src/capture/synchronized-capture-session.cpp:172-214 | with packets in CTS order, each history is a suffix of what its stream retained |
| CaptureStreams.StreamsExactly | src/capture/synchronized-capture-session.cpp:119-214 | in every run a stream has a codec header if and only if some delivered packet carried one, its name is the registered one, and its timebase is the registered one if usable, otherwise that of the first packet delivered |
| CaptureStreams.CountersExactly | src/capture/synchronized-capture-session.cpp:172-214 | in every run the counters are the numbers of packets turned away and of repetitions |
| CaptureStreams.WatermarkExactly | src/capture/synchronized-capture-session.cpp:266-278 | in every run the common watermark is the greatest CTS that every stream has reached, absent exactly if some stream, or the session, has nothing |
| CaptureSession.SynchronizedCaptureSession.RegisterStream | src/capture/synchronized-capture-session.cpp:119-142 | accepted exactly for a stopped session, a fresh non-empty name, real dimensions and the next dense id |
| CaptureSession.SynchronizedCaptureSession.Ingest | src/capture/synchronized-capture-session.cpp:172-214 | rejected, repeated, passed through or retained with eviction; the whole new state |
| CaptureSession.SynchronizedCaptureSession.SetRingCapacityBytes | src/capture/synchronized-capture-session.cpp:226-234 | evicts to the new budget while retention is on |
| CaptureSession.SynchronizedCaptureSession.SetReplayRetentionEnabled | src/capture/synchronized-capture-session.cpp:236-249 | switching off empties every stream and forgets its watermark |
| CaptureSession.SynchronizedCaptureSession.CommonWatermarkCts | src/capture/synchronized-capture-session.cpp:266-278 | the smallest of the greatest CTS values, absent until every stream has one |
| CaptureSession.SynchronizedCaptureSession.SnapshotCommonRangeDetailed | src/capture/synchronized-capture-session.cpp:297-381 | the rejections in order of precedence, otherwise a correct selection of the named streams |
| ReplaySnapshot.SelectRange | src/capture/synchronized-capture-session.cpp:319-380 | start optimality (greatest common keyframe at or before the target, else the least in the window), the shared run behind it, and `no-common-keyframe` exactly if none exists |
| ReplaySnapshot.RefusedExactly | src/capture/synchronized-capture-session.cpp:319-350 | a selection is turned down if and only if the histories overlap too little or hold no common keyframe in the overlap, and with that reason |
| ReplaySnapshot.Boundaries | src/capture/synchronized-capture-session.cpp:352-380 | every slice is non-empty, begins with a keyframe at the start, ends exactly at the end, and contains every CTS of the first slice |
| ReplaySnapshot.Covers | src/capture/synchronized-capture-session.cpp:326-339 | the save covers the requested duration if and only if some common keyframe lies early enough |
| ReplaySnapshot.EqualSlicesExactly | src/capture/synchronized-capture-session.cpp:352-380 | all slices have one CTS list if and only if no stream holds a CTS of the range that the first one lacks |
| ReplaySnapshot.AgreementRunsToEnd | src/capture/synchronized-capture-session.cpp:352-361 | if the streams agree over the window, the save runs to its end |
| ReplaySnapshot.ExtraFrameIsSaved | src/capture/synchronized-capture-session.cpp:352-361 | a save whose slices differ |
| ReplaySave.MuxPackets | src/replay/synchronized-replay-consumer.cpp:23-46 | the rewriting loop computes the remuxed slice |
| ReplaySave.MuxedInDecodeOrder | src/replay/synchronized-replay-consumer.cpp:23-46 | remuxing permutes the frames, orders them by DTS from zero, and makes PTS follow CTS with zero at the start |
| ReplaySave.MuxedExactly | src/replay/synchronized-replay-consumer.cpp:23-46 | every remuxed packet presents at its CTS less the start, to within half a tick of the timebase of the slice, the DTS differences are those of the originals, and every other field is kept |
| ReplaySave.SliceSaves | src/replay/synchronized-replay-consumer.cpp:145-175 | a slice that spans the range is saved if and only if its file opens, the library takes every packet and the trailer, and its muxed DTS values never decrease |
| ReplaySave.WriteSnapshot | src/replay/synchronized-replay-consumer.cpp:133-179 | the streams are written in order up to the first failure, which becomes the error of the save |
| ReplaySave.RingSnapshotSaves | src/replay/synchronized-replay-consumer.cpp:133-179 | end to end: a snapshot of the ring is saved if and only if that holds of every stream, and then every file spans exactly the range; which errors are possible otherwise |
| ReplaySave.OneTimebaseSaves | src/replay/synchronized-replay-consumer.cpp:133-179 | with one timebase per stream, only an open or a library call can fail a save |
| ReplaySave.MixedTimebaseFails | src/replay/synchronized-replay-consumer.cpp:37-44 | a slice with two timebases that the DTS-order check refuses |
| ReplaySave.SynchronizedReplayConsumer.RequestSave | src/replay/synchronized-replay-consumer.cpp:58-105 | the job holds the snapshot of the ring at the request; it is turned down if and only if there is a reason, with the first: no files, each reason for which the ring yields no snapshot, a different number of streams, a save in progress; that changes only its error |
| ReplaySave.SynchronizedReplayConsumer.Complete | src/replay/synchronized-replay-consumer.cpp:91-99 | the result is that of the requested snapshot, whatever was ingested since |
| CaptureConfiguration.SelectedStreamIndexes | src/control/capture-configuration.cpp:43-52 | the positions of the participating streams |
| CaptureConfiguration.CaptureIdFor | src/control/capture-control.cpp:280-292 | the byte id of the first enabled stream with the identity |
| CaptureConfiguration.SelectedCaptureIds | src/control/capture-control.cpp:379-392 | the byte ids of the streams a consumer takes |
| CaptureConfiguration.SelectedPacketConfigs | src/control/capture-control.cpp:394-402 | their configurations, in the same order |
| CaptureConfiguration.NumberingAgrees | src/control/capture-control.cpp:280-402 | if no stream shares the identity of an enabled one and at most 255 are enabled, ids and configurations refer position by position to one stream, whose own id is the selected one |
| CaptureConfiguration.LookupsAgreeExactly | src/control/capture-control.cpp:280-292 | every lookup by identity finds the number of its own stream, and none for a disabled one, if and only if no stream shares the identity of an enabled one |
| EncoderDemand.CreatesBeforeStarting | src/control/capture-control.cpp:320-352 | nothing starts before every missing encoder has been created |
| EncoderDemand.ReconcilingMeetsDemand | src/control/capture-control.cpp:320-352 | only demanded inactive encoders start, nothing stops, and on success all demanded ones are active |
| EncoderDemand.TrimmingLeavesDemand | src/control/capture-control.cpp:354-366 | exactly the undemanded encoders of the configured streams are released |
| EncoderDemand.ReleaseIsSafeExactly | src/control/capture-control.cpp:354-366 | with any identities: the release pass never stops a demanded encoder if and only if no lookup finds a stream that needs more than the one it is made for |
| EncoderDemand.SharedIdentityStopsEncoder | src/control/capture-control.cpp:357-364 | a disabled stream with the identity of a recorded one: the release pass stops the demanded encoder |
| CaptureControl.CaptureControlEngine.RegisterStreams | src/control/capture-control.cpp:294-305 | succeeds exactly on a fresh session with 1 to 255 enabled streams of distinct names and real dimensions, and gives stream k the id k |
| CaptureControl.CaptureControlEngine.EnsureCaptureActive | src/control/capture-control.cpp:307-318 | when capture is or becomes active, and when the epoch advances |
| CaptureControl.CaptureControlEngine.ReconcileEncoderDemand | src/control/capture-control.cpp:320-352 | starts only demanded inactive encoders, none before every missing one exists; on success all demanded are active |
| CaptureControl.CaptureControlEngine.ReleaseUndemandedEncoders | src/control/capture-control.cpp:354-366 | releases exactly the active encoders that nobody demands |
| CaptureControl.CaptureControlEngine.StopCaptureIfUnused | src/control/capture-control.cpp:368-377 | with both consumers off: no capture, no retention, no active encoder; otherwise nothing |
| ControlTheorems.FailedStartExactly | src/control/capture-control.cpp:67-82 | a failed start from a state without left-over encoders leaves none over if and only if both consumers were off or it started none |
| ControlTheorems.LeftoverExactly | src/control/capture-control.cpp:320-377 | while the same consumers stay on, encoders are left over in the end if and only if some were at the beginning or a command in between started one |
| ControlWitness.LeftoverRun | src/control/capture-control.cpp:67-82 | a run after which an encoder is active that nobody demands |
| ControlTheorems.CommandSteps | src/control/capture-control.cpp:30-242 | every command keeps the engine coherent, starts no encoder outside the demand with the consumer it starts, stops none that stays demanded, and says exactly when no encoder is left over |
| ControlTheorems.RunCoherent | src/control/capture-control.cpp:30-242 | the engine is coherent between any two commands of any run |
| CaptureControl.CaptureControlEngine.Initialize | src/control/capture-control.cpp:30-39 | initialization succeeds exactly when registration does |
| CaptureControl.CaptureControlEngine.StartRecording | src/control/capture-control.cpp:41-85 | refusals, success and both kinds of failure, each with the whole new state, the active encoders and the calls made |
| CaptureControl.CaptureControlEngine.StopRecording | src/control/capture-control.cpp:87-105 | keeps the recorder's result, releases what is not demanded, stops capture if unused; fails without a consumer |
| CaptureControl.CaptureControlEngine.StartReplay | src/control/capture-control.cpp:107-142 | as for recording; only with replay enabled in the configuration |
| CaptureControl.CaptureControlEngine.StopReplay | src/control/capture-control.cpp:144-156 | retention off, exactly the demanded encoders active, the stored save result unchanged |
| CaptureControl.CaptureControlEngine.SaveReplay | src/control/capture-control.cpp:158-188 | turned down unless replay is running with one path per stream; a save is a snapshot of the ring at the command |
| CaptureControl.CaptureControlEngine.ApplyReplayConfiguration | src/control/capture-control.cpp:190-203 | takes the configuration over, stopping replay if it is disabled |
| CaptureControl.CaptureControlEngine.WaitForReplaySave | src/control/capture-control.cpp:205-214 | keeps the result of the pending save |
| CaptureControl.CaptureControlEngine.PollReplaySave | src/control/capture-control.cpp:216-223 | keeps the result exactly if a save has finished |
| CaptureControl.CaptureControlEngine.Shutdown | src/control/capture-control.cpp:225-242 | ends with no consumer, no capture and no active encoder |
| ControlStatus.StartRecordingExactly | src/control/capture-control.cpp:41-85 | from every coherent state: no-op if recording was on, invalid exactly without initialization or with another number of paths than participating streams or none, success exactly if recording runs afterwards, failure exactly if the recorder does not start or an encoder call is refused; and the epoch |
| ControlStatus.StopRecordingExactly | src/control/capture-control.cpp:87-105 | success if recording was on, else no-op; recording is off and capture runs exactly if replay is on |
| ControlStatus.StartReplayExactly | src/control/capture-control.cpp:107-142 | no-op exactly if replay was on, invalid exactly without initialization, with replay disabled or without a participating stream, success exactly if replay runs afterwards, failure exactly if an encoder call is refused; and the epoch |
| ControlStatus.StopReplayExactly | src/control/capture-control.cpp:144-156 | success if replay was on, else no-op; replay and retention are off and capture runs exactly if recording is on |
| ControlStatus.SaveReplayExactly | src/control/capture-control.cpp:158-188 | invalid exactly unless replay is running, without a save in progress, with one path per participating stream and at least one; failure exactly if the ring yields no snapshot |
| ControlStatus.SaveEndsExactly | src/control/capture-control.cpp:205-223 | the saving state ends with the poll that finds the worker finished or with the wait, and replay runs again |
| ControlStatus.ReconfigureExactly | src/control/capture-control.cpp:190-203 | never fails; replay goes on exactly if it was on and is still enabled |
| ControlStatus.InitializeExactly | src/control/capture-control.cpp:30-39 | succeeds exactly on a fresh session with registrable streams, and changes nothing afterwards |
| ControlStatus.ShutdownExactly | src/control/capture-control.cpp:225-242 | both consumers off, capture idle and no active encoder, everything else unchanged |
| ControlTheorems.NeverRestarted | src/control/capture-control.cpp:334-350 | over all command sequences, an encoder that stays demanded is never started or stopped: a handoff does not restart it |
| ControlTheorems.EpochIsStable | src/control/capture-control.cpp:307-318 | the epoch changes only in a command issued with both consumers off |
| ControlTheorems.EpochCountsRestarts | src/control/capture-control.cpp:307-318 | the epoch never runs ahead of those commands |
| ControlTheorems.NeverFailsOnceInitialized | src/control/capture-control.cpp:307-318 | after initialization capture is never reported as failed |
| CaptureControl.IngestKeepsEngine | src/capture/synchronized-capture-session.cpp:172-214 | packets arriving between commands do not disturb the engine |

"Coherent" in `control_theorems.dfy` is what holds between any two commands: every demanded encoder is active, none is
active with both consumers off, capture runs if and only if a consumer is on, and while it runs retention is on if and
only if replay is.

## Left out

- Payload bytes and codec extra data: a packet keeps its length, a stream whether its header is present.
- libavformat, files, paths and clocks: a writer is the list of accepted packets and a budget of library calls; wall times are dropped.
- Mutexes, condition variables and threads: atomic steps at the lock boundaries; the save worker is one `Complete` step.
- Fan-out of captured packets to subscribed consumers, and the diagnostic sink of the control engine (the encoder calls themselves are recorded).
- Metrics: peak byte counters and pre-roll counters.
- 64-bit wrap-around of CTS values and overflow of DTS differences: CTS values are naturals, timestamps integers.
- `SetStreamExtraData` of the recording session, and null sinks in its constructor.
- `SelectCommonEnd`: a call of the prefix selector without a cadence.
- LiveRecorder.SynchronizedRecordingConsumer.Work: the writers are owned values here, not heap objects, so aliasing of writers is not modelled; `Start` is modelled by the constructor.
- DecodeOrder.SortForDecodeOrder: sorts by insertion, because the library's algorithm is not part of the repository; `StableSortUnique` shows that the choice cannot be observed.
- CaptureControl.CaptureControlEngine.constructor: assumes that the engine has a stopped capture session and inactive encoders to itself and that no stream shares the identity of an enabled one; the program does not check this.
- LiveRecorder.SynchronizedRecordingConsumer.OnPacket: a worker turn is one step here; in the program a producer can find the queue full between the worker's pop and its failure, and the stored error is then the overflow.
- ReplaySave.SynchronizedReplayConsumer.RequestSave: for a save of all streams, listing the ids and taking the snapshot is one step, where the program takes the lock twice.
- The recording consumer as seen by the control engine is a flag and the outcome it reports; its own behaviour is `LiveRecorder`.
- OBS and Qt code, scene topology, the master frame timeline, the frame queue and the research probe: foreign calls, wiring, or small state with one-step properties.
