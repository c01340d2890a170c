/** The two-stream recording session as the program runs it: fields updated in place by its calls.
    Every method is proved to compute the corresponding function of `RecordingModel`. */
module RecordingSession {
  import opened Packets
  import opened DecodeOrder
  import opened PacketBuffer
  import opened CommonRange
  import opened PacketSinks
  import opened RecordingModel

  lemma {:induction false} FilterAfterUpTo(s: seq<Packet>, lo: int, hi: int)
    ensures Between(UpTo(s, hi), lo, hi) == Between(s, lo, hi)
  {
    if |s| > 0 {
      var init, last := s[..|s| - 1], s[|s| - 1];
      Snoc(s);
      FilterAfterUpTo(init, lo, hi);
      UpToSnoc(init, last, hi);
      FromSnoc(init, last, lo);
      FromSnoc(UpTo(init, hi), last, lo);
      UpToSnoc(From(init, lo), last, hi);
      UpToSnoc(From(UpTo(init, hi), lo), last, hi);
    }
  }

  /** The packets of a snapshot that are at or above `start`, above `lower` and at or below `cts`. */
  method SelectNew(packets: seq<Packet>, start: nat, lower: Option<nat>, cts: nat) returns (selected: seq<Packet>)
    ensures var lo := if lower.Some? && lower.value >= start then lower.value + 1 else start;
            selected == Between(packets, lo, cts)
  {
    hide From, UpTo;
    ghost var lo := if lower.Some? && lower.value >= start then lower.value + 1 else start;
    selected := [];
    assert From([], lo) == [] && UpTo([], cts) == [] by { FromNone([], lo); UpToNone([], cts); }
    for i := 0 to |packets|
      invariant selected == Between(packets[..i], lo, cts)
    {
      assert packets[..i + 1] == packets[..i] + [packets[i]];
      FromSnoc(packets[..i], packets[i], lo);
      UpToSnoc(From(packets[..i], lo), packets[i], cts);
      if packets[i].cts >= start && (lower.None? || packets[i].cts > lower.value) && packets[i].cts <= cts {
        selected := selected + [packets[i]];
      }
    }
    assert packets[..|packets|] == packets;
  }

  method AllContained(packets: seq<Packet>, other: EncodedPacketBuffer) returns (ok: bool)
    requires other.Valid()
    ensures ok <==> Contained(packets, other.packets)
  {
    for i := 0 to |packets|
      invariant forall q :: q in packets[..i] ==> HasCts(other.packets, q.cts)
    {
      var found := other.Contains(packets[i].cts);
      if !found {
        assert packets[i] in packets;
        return false;
      }
    }
    return true;
  }

  method WriteAll(sink: PacketSink, packets: seq<Packet>) returns (ok: bool)
    modifies sink
    ensures ok <==> |packets| <= old(sink.budget)
    ensures sink.View() == old(sink.View()).Wrote(packets)
  {
    for i := 0 to |packets|
      invariant i <= old(sink.budget)
      invariant sink.View() == old(sink.View()).Wrote(packets[..i])
    {
      ok := sink.Write(packets[i]);
      if !ok {
        assert i == old(sink.budget);
        return false;
      }
      assert packets[..i + 1] == packets[..i] + [packets[i]];
    }
    assert packets[..|packets|] == packets;
    return true;
  }

  /** The first positive distance between neighbours at or above `start`. */
  method FirstStepOf(packets: seq<Packet>, start: nat) returns (step: nat)
    requires Sorted(packets)
    ensures step == FirstStep(packets, start)
  {
    hide From, UpTo;
    var i := SkipBelow(packets, start);
    if i + 1 < |packets| && packets[i + 1].cts > packets[i].cts {
      return packets[i + 1].cts - packets[i].cts;
    }
    return 0;
  }

  class SynchronizedRecordingSession {
    const config: Config
    const bufferA: EncodedPacketBuffer
    const bufferB: EncodedPacketBuffer
    const sinkA: PacketSink
    const sinkB: PacketSink
    var state: State
    var failure: Failure
    var requestedStartCts: nat
    var requestedStopCts: nat
    var maxObservedCtsA: nat
    var maxObservedCtsB: nat
    var sourceCtsStep: nat
    var lastFlushedCts: nat
    var hasFlushedCts: bool
    var selectedRange: Option<Range>
    ghost var acceptedA: seq<Packet>
    ghost var acceptedB: seq<Packet>

    ghost predicate Valid()
      reads this, bufferA, bufferB
    {
      && bufferA != bufferB && sinkA != sinkB
      && bufferA.Valid() && bufferB.Valid()
      && (state == Running ==> selectedRange.Some?)
    }

    ghost function View(): Session
      reads this, bufferA, bufferB, sinkA, sinkB
    {
      Session(state, failure, requestedStartCts, requestedStopCts, sourceCtsStep,
              if hasFlushedCts then Some(lastFlushedCts) else None, selectedRange,
              Lane(bufferA.View(), maxObservedCtsA, sinkA.View(), acceptedA),
              Lane(bufferB.View(), maxObservedCtsB, sinkB.View(), acceptedB))
    }

    constructor (config: Config, sinkA: PacketSink, sinkB: PacketSink)
      requires sinkA != sinkB && sinkA.View().Untouched() && sinkB.View().Untouched()
      ensures Valid() && fresh(bufferA) && fresh(bufferB)
      ensures this.sinkA == sinkA && this.sinkB == sinkB && this.config == config
      ensures View() == Initial(config, sinkA.budget, sinkB.budget)
    {
      this.config, this.sinkA, this.sinkB := config, sinkA, sinkB;
      var a := new EncodedPacketBuffer(config.preRollCapacity);
      var b := new EncodedPacketBuffer(config.preRollCapacity);
      bufferA, bufferB := a, b;
      state, failure, requestedStartCts, requestedStopCts := Idle, Failure.NoFailure, 0, 0;
      maxObservedCtsA, maxObservedCtsB, sourceCtsStep := 0, 0, config.expectedStep;
      lastFlushedCts, hasFlushedCts, selectedRange := 0, false, None;
      acceptedA, acceptedB := [], [];
    }

    method Fail(reason: Failure) returns (ok: bool)
      requires Valid()
      modifies this, sinkA, sinkB
      ensures Valid() && !ok
      ensures View() == old(View()).Failing(reason)
    {
      failure, state := reason, Failed;
      sinkA.Abort();
      sinkB.Abort();
      return false;
    }

    method Start(requestedStart: nat) returns (ok: bool)
      requires Valid()
      modifies this, sinkA, sinkB
      ensures Valid() && View() == Started(old(View()), requestedStart)
      ensures ok <==> View().Succeeds()
    {
      if state != Idle {
        ok := Fail(InvalidTransition);
        return;
      }
      requestedStartCts, state := requestedStart, Starting;
      return true;
    }

    method InferSourceCtsStep()
      requires Valid()
      modifies this
      ensures Valid() && View() == Inferred(old(View()))
    {
      if selectedRange.None? || sourceCtsStep != 0 {
        return;
      }
      var stepA := FirstStepOf(bufferA.packets, selectedRange.value.start);
      var stepB := FirstStepOf(bufferB.packets, selectedRange.value.start);
      if stepA != 0 && stepB != 0 {
        var difference := if stepA > stepB then stepA - stepB else stepB - stepA;
        if difference <= 1 {
          sourceCtsStep := if stepA < stepB then stepA else stepB;
        }
      }
    }

    method RunningWatermark() returns (watermark: Option<nat>)
      requires Valid() && selectedRange.Some?
      ensures watermark == Watermark(View(), config.reorderSafety)
    {
      var newest := if maxObservedCtsA < maxObservedCtsB then maxObservedCtsA else maxObservedCtsB;
      if newest < config.reorderSafety {
        return None;
      }
      if newest - config.reorderSafety < selectedRange.value.start {
        return None;
      }
      return Some(newest - config.reorderSafety);
    }

    method FlushThrough(cts: nat) returns (ok: bool)
      requires Valid() && state != Failed
      modifies this, bufferA, bufferB, sinkA, sinkB
      ensures Valid() && View() == FlushedThrough(old(View()), cts)
      ensures ok <==> View().Succeeds()
    {
      hide From, UpTo, DecodeSort, SizeOf, PrefixEnd, InferredStep, RecordingModel.Committed, Between, Contained;
      if selectedRange.None? || cts < selectedRange.value.start {
        ok := Fail(MissingCommonRange);
        return;
      }
      if hasFlushedCts && cts <= lastFlushedCts {
        return true;
      }
      InferSourceCtsStep();
      ghost var s := View();
      var start := selectedRange.value.start;
      var prefix := SelectCommonPrefixEnd(bufferA.packets, bufferB.packets, start, cts, sourceCtsStep);
      var lower := if hasFlushedCts then Some(lastFlushedCts) else None;
      var packetsA := bufferA.SnapshotThrough(cts);
      var packetsB := bufferB.SnapshotThrough(cts);
      FilterAfterUpTo(bufferA.packets, Frontier(s), cts);
      FilterAfterUpTo(bufferB.packets, Frontier(s), cts);
      var selectedA := SelectNew(packetsA, start, lower, cts);
      var selectedB := SelectNew(packetsB, start, lower, cts);
      var containedA := AllContained(selectedA, bufferB);
      var containedB := AllContained(selectedB, bufferA);
      if prefix != Some(cts) || !containedA || !containedB {
        ok := Fail(RangeMismatch);
        return;
      }
      ok := CommitBatches(cts, selectedA, selectedB);
    }

    method CommitBatches(cts: nat, selectedA: seq<Packet>, selectedB: seq<Packet>) returns (ok: bool)
      requires Valid() && state != Failed
      modifies this, bufferA, bufferB, sinkA, sinkB
      ensures Valid()
      ensures View() == RecordingModel.Committed(old(View()), cts, DecodeSort(selectedA), DecodeSort(selectedB))
      ensures ok <==> View().Succeeds()
    {
      hide From, UpTo, SizeOf, DecodeSort, StableSortOf, Sorted;
      var batchA := SortForDecodeOrder(selectedA);
      var batchB := SortForDecodeOrder(selectedB);
      ghost var s := View();
      ok := WriteAll(sinkA, batchA);
      ghost var w := s.(a := s.a.(sink := s.a.sink.Wrote(batchA)));
      assert View() == w;
      if !ok {
        ok := Fail(SinkWrite);
        return;
      }
      ok := WriteAll(sinkB, batchB);
      ghost var x := w.(b := w.b.(sink := w.b.sink.Wrote(batchB)));
      assert View() == x;
      if !ok {
        ok := Fail(SinkWrite);
        return;
      }
      ok := CommitSinks(cts);
      if !ok {
        ok := Fail(SinkWrite);
        return;
      }
      Forget(cts);
      return true;
    }

    /** Notes a commit and drops what it covers from both stores. */
    method Forget(cts: nat)
      requires Valid()
      modifies this, bufferA, bufferB
      ensures Valid()
      ensures var s := old(View());
              View() == s.(flushed := Some(cts), a := s.a.(store := s.a.store.Discarded(cts + 1)),
                           b := s.b.(store := s.b.store.Discarded(cts + 1)))
    {
      hide From, SizeOf, Sorted;
      bufferA.DiscardBefore(cts + 1);
      bufferB.DiscardBefore(cts + 1);
      lastFlushedCts, hasFlushedCts := cts, true;
    }

    method CommitSinks(cts: nat) returns (ok: bool)
      requires Valid()
      modifies sinkA, sinkB
      ensures Valid()
      ensures ok <==> old(sinkA.budget) > 0 && old(sinkB.budget) > 0
      ensures var s := old(View());
              View() == if s.a.sink.budget == 0 then s
                        else
                          var t := s.(a := s.a.(sink := s.a.sink.Committed(cts)));
                          if s.b.sink.budget == 0 then t else t.(b := t.b.(sink := t.b.sink.Committed(cts)))
    {
      ok := sinkA.CommitThrough(cts);
      if ok {
        ok := sinkB.CommitThrough(cts);
      }
    }

    method FlushStablePackets() returns (ok: bool)
      requires Valid() && state == Running
      modifies this, bufferA, bufferB, sinkA, sinkB
      ensures Valid() && View() == StableFlushed(old(View()), config.reorderSafety)
      ensures ok <==> View().Succeeds()
    {
      hide FlushedThrough, PrefixEnd, From, SizeOf;
      InferSourceCtsStep();
      var watermark := RunningWatermark();
      if watermark.None? {
        return true;
      }
      var prefix := SelectCommonPrefixEnd(bufferA.packets, bufferB.packets, selectedRange.value.start,
                                          watermark.value, sourceCtsStep);
      if prefix.None? || (hasFlushedCts && prefix.value <= lastFlushedCts) {
        return true;
      }
      ok := FlushThrough(prefix.value);
    }

    method EstablishCommonStart() returns (ok: bool)
      requires Valid() && state == Starting
      modifies this, bufferA, bufferB, sinkA, sinkB
      ensures Valid() && View() == Established(old(View()), config)
      ensures ok <==> View().Succeeds()
    {
      hide StableFlushed, From, SizeOf, InferredStep, Opened, Insert, UpTo, Sorted, CommonStart;
      var start := SelectCommonStart(bufferA.packets, bufferB.packets, requestedStartCts);
      if start.None? {
        return true;
      }
      var c := start.value;
      ghost var s := View();
      selectedRange := Some(Range(c, c));
      bufferA.DiscardBefore(c);
      bufferB.DiscardBefore(c);
      ghost var t := s.(range := Some(Range(c, c)),
                        a := s.a.(store := s.a.store.Discarded(c)), b := s.b.(store := s.b.store.Discarded(c)));
      assert View() == t;
      ok := bufferA.SetCapacityBytes(config.tailCapacity);
      if !ok {
        ok := Fail(BufferCapacity);
        return;
      }
      ghost var u := t.(a := t.a.(store := t.a.store.Resized(config.tailCapacity)));
      assert View() == u;
      ok := bufferB.SetCapacityBytes(config.tailCapacity);
      if !ok {
        ok := Fail(BufferCapacity);
        return;
      }
      assert View() == u.(b := u.b.(store := u.b.store.Resized(config.tailCapacity)));
      ok := OpenAt(c);
    }

    method OpenAt(c: nat) returns (ok: bool)
      requires Valid() && state == Starting && selectedRange.Some?
      modifies this, bufferA, bufferB, sinkA, sinkB
      ensures Valid() && View() == Opened(old(View()), c, config)
      ensures ok <==> View().Succeeds()
    {
      hide StableFlushed, From, SizeOf, InferredStep;
      ghost var s := View();
      ok := OpenSinks(c);
      if !ok {
        sinkA.Abort();
        sinkB.Abort();
        ok := Fail(SinkOpen);
        return;
      }
      ObserveNewest(c);
      assert View() == s.(a := s.a.(sink := s.a.sink.Opened(c), maxCts := NewestOr(s.a.store, c)),
                          b := s.b.(sink := s.b.sink.Opened(c), maxCts := NewestOr(s.b.store, c)));
      InferSourceCtsStep();
      state := Running;
      ok := FlushStablePackets();
    }

    method ObserveNewest(c: nat)
      requires Valid()
      modifies this
      ensures Valid()
      ensures var s := old(View());
              View() == s.(a := s.a.(maxCts := NewestOr(s.a.store, c)), b := s.b.(maxCts := NewestOr(s.b.store, c)))
    {
      maxObservedCtsA := if |bufferA.packets| == 0 then c else bufferA.packets[|bufferA.packets| - 1].cts;
      maxObservedCtsB := if |bufferB.packets| == 0 then c else bufferB.packets[|bufferB.packets| - 1].cts;
    }

    method OpenSinks(c: nat) returns (ok: bool)
      requires Valid()
      modifies sinkA, sinkB
      ensures Valid()
      ensures ok <==> old(sinkA.budget) > 0 && old(sinkB.budget) > 0
      ensures var s := old(View());
              View() == if s.a.sink.budget == 0 then s
                        else
                          var t := s.(a := s.a.(sink := s.a.sink.Opened(c)));
                          if s.b.sink.budget == 0 then t else t.(b := t.b.(sink := t.b.sink.Opened(c)))
    {
      ok := sinkA.Open(c);
      if ok {
        ok := sinkB.Open(c);
      }
    }

    /** Offers a packet to the store of its stream and notes it if it was retained. */
    method Retain(stream: Stream, packet: Packet) returns (result: PushResult)
      requires Valid()
      modifies this, bufferA, bufferB
      ensures Valid() && state == old(state)
      ensures result == LaneOf(old(View()), stream).store.PushOutcome(packet)
      ensures View() == if result == Retained
                        then WithLane(old(View()), stream, Accepting(LaneOf(old(View()), stream), packet))
                        else old(View())
    {
      hide Insert, SizeOf;
      if stream == A {
        result := bufferA.Push(packet);
        if result == Retained {
          maxObservedCtsA := if packet.cts > maxObservedCtsA then packet.cts else maxObservedCtsA;
          acceptedA := Insert(acceptedA, packet);
        }
      } else {
        result := bufferB.Push(packet);
        if result == Retained {
          maxObservedCtsB := if packet.cts > maxObservedCtsB then packet.cts else maxObservedCtsB;
          acceptedB := Insert(acceptedB, packet);
        }
      }
    }

    method SubmitPacket(stream: Stream, packet: Packet) returns (ok: bool)
      requires Valid()
      modifies this, bufferA, bufferB, sinkA, sinkB
      ensures Valid() && View() == Submitted(old(View()), config, stream, packet)
      ensures ok <==> View().Succeeds()
    {
      hide StableFlushed, Established, Accepting, HasCts, Insert, Sorted, SizeOf, From;
      if state != Starting && state != Running && state != Draining {
        ok := Fail(InvalidTransition);
        return;
      }
      if selectedRange.Some? && packet.cts < selectedRange.value.start {
        return true;
      }
      if selectedRange.Some? && hasFlushedCts && packet.cts <= lastFlushedCts {
        ok := Fail(LatePacket);
        return;
      }
      var result := Retain(stream, packet);
      if result != Retained {
        ok := Fail(match result case MissingTiming => PacketTiming
                                case DuplicateSourceCts => RepeatedCts
                                case _ => BufferCapacity);
        return;
      }
      if state == Starting {
        ok := EstablishCommonStart();
      } else if state == Running {
        ok := FlushStablePackets();
      } else {
        ok := true;
      }
    }

    method PollStart(currentCts: nat) returns (ok: bool)
      requires Valid()
      modifies this, bufferA, bufferB, sinkA, sinkB
      ensures Valid() && View() == Polled(old(View()), config, currentCts)
    {
      hide Established;
      if state != Starting {
        return state != Failed;
      }
      ok := EstablishCommonStart();
      if ok {
        return true;
      }
      if currentCts >= requestedStartCts && currentCts - requestedStartCts > config.maxStartWait {
        ok := Fail(StartTimeout);
        return;
      }
      return true;
    }

    method RequestStop(requestedStop: nat) returns (ok: bool)
      requires Valid()
      modifies this, sinkA, sinkB
      ensures Valid() && View() == StopRequested(old(View()), requestedStop)
      ensures ok <==> View().Succeeds()
    {
      if state == Draining || state == Stopped {
        return true;
      }
      if state == Failed {
        return false;
      }
      if state != Running && state != Starting {
        ok := Fail(InvalidTransition);
        return;
      }
      requestedStopCts := requestedStop;
      if state == Running {
        state := Draining;
      }
      return true;
    }

    method ClearBuffers()
      requires Valid()
      modifies bufferA, bufferB
      ensures Valid()
      ensures var s := old(View());
              View() == s.(a := s.a.(store := s.a.store.Cleared()), b := s.b.(store := s.b.store.Cleared()))
    {
      hide SizeOf, Sorted;
      bufferA.Clear();
      bufferB.Clear();
    }

    method FinalizeAt(end: nat) returns (ok: bool)
      requires Valid() && selectedRange.Some? && state != Failed
      modifies this, bufferA, bufferB, sinkA, sinkB
      ensures Valid() && View() == Finalized(old(View()), end)
      ensures ok <==> View().state == Stopped
    {
      hide SizeOf, Sorted, From;
      ok := sinkA.Finalize(end);
      if ok {
        ok := sinkB.Finalize(end);
      }
      if !ok {
        sinkA.Abort();
        sinkB.Abort();
        ok := Fail(SinkFinalize);
        return;
      }
      selectedRange := Some(selectedRange.value.(end := end));
      ClearBuffers();
      state := Stopped;
      return true;
    }

    method CompleteDrain() returns (ok: bool)
      requires Valid()
      modifies this, bufferA, bufferB, sinkA, sinkB
      ensures Valid() && View() == Drained(old(View()))
      ensures ok <==> View().state == Stopped
    {
      hide FlushedThrough, PrefixEnd;
      if state == Stopped {
        return true;
      }
      if state == Failed {
        return false;
      }
      if state != Draining || selectedRange.None? {
        return false;
      }
      var end := if hasFlushedCts then lastFlushedCts else 0;
      var candidate := SelectCommonPrefixEnd(bufferA.packets, bufferB.packets, selectedRange.value.start,
                                             requestedStopCts, sourceCtsStep);
      if candidate.Some? {
        end := candidate.value;
      }
      if end < selectedRange.value.start {
        ok := Fail(MissingCommonRange);
        return;
      }
      ok := FlushThrough(end);
      if !ok {
        return false;
      }
      ok := FinalizeAt(end);
    }

    method Abort()
      requires Valid()
      modifies this, bufferA, bufferB, sinkA, sinkB
      ensures Valid() && View() == AbortedBy(old(View()))
    {
      if state == Stopped || state == Failed {
        return;
      }
      sinkA.Abort();
      sinkB.Abort();
      ClearBuffers();
      if failure == Failure.NoFailure {
        failure := Failure.Aborted;
      }
      state := Failed;
    }
  }
}
