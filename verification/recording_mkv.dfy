/** The recording session on top of MKV sinks: the range check at finalization is discharged by the transaction. */
module RecordingMkv {
  import opened Packets
  import opened MkvWriter
  import opened MkvSink
  import opened RecordingModel
  import opened RecordingInvariant
  import opened RecordingTheorems

  /** The sink of a committed lane spans exactly [start, flushed]. */
  lemma LaneSpans(s: Session, config: Config, stream: Stream)
    requires Inv(s, config) && s.state in {Running, Draining} && s.flushed.Some?
    ensures Spans(LaneOf(s, stream).sink.written, s.range.value.start, s.flushed.value)
  {
    hide From, UpTo, Between, Settled;
    PairedSinks(s);
    RecordedExactly(LaneOf(s, stream), s.range.value.start, s.flushed);
  }

  /** An MKV sink that was given the packets of a lane, in any batches and none of them late, and refused none of
      them. When both streams are committed through `end`, finalizing it at `end` succeeds exactly if the library takes
      every packet and the trailer: the range check never fails. */
  lemma CommittedRangeFinalizes(s: Session, config: Config, stream: Stream, sink: Reorder, calls: seq<Call>)
    requires Inv(s, config) && s.state in {Running, Draining} && s.flushed.Some?
    requires Streaming(sink) && sink.arrived == [] && sink.start == s.range.value.start
    requires InOrder(sink, calls) && Offers(calls) == LaneOf(s, stream).sink.written && Play(sink, calls).1
    ensures MkvSink.Finalized(Play(sink, calls).0, s.flushed.value).1 <==> |Offers(calls)| < sink.writer.budget
  {
    hide Inv, Streaming, Play, MkvSink.Finalized;
    LaneSpans(s, config, stream);
    RunFinalizes(sink, calls, s.flushed.value);
  }
}
