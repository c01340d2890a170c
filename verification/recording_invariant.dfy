/** The transaction invariant of the two-stream recording session, kept by every public call. */
module RecordingInvariant {
  import opened Packets
  import opened DecodeOrder
  import opened PacketBuffer
  import opened CommonRange
  import opened PacketSinks
  import opened RecordingModel

  /** The accepted packets of a lane that belong to the committed range. */
  ghost function Kept(lane: Lane, start: nat, flushed: Option<nat>): seq<Packet> {
    if flushed.None? then [] else Between(lane.accepted, start, flushed.value)
  }

  ghost function NextCts(start: nat, flushed: Option<nat>): nat {
    if flushed.Some? then flushed.value + 1 else start
  }

  ghost predicate LaneOk(lane: Lane) {
    lane.store.Ok() && Sorted(lane.accepted) && lane.maxCts == MaxCts(lane.accepted)
  }

  /** The sink was opened at the start and received exactly the accepted packets of the committed range. */
  ghost predicate Recorded(lane: Lane, start: nat, flushed: Option<nat>) {
    && KeyframeAt(lane.accepted, start)
    && !lane.sink.aborted
    && lane.sink.openedAt == Some(start)
    && lane.sink.committed == flushed
    && multiset(lane.sink.written) == multiset(Kept(lane, start, flushed))
  }

  /** ... and the store holds exactly the accepted packets that are still to come. */
  ghost predicate LiveLane(lane: Lane, start: nat, flushed: Option<nat>) {
    && LaneOk(lane)
    && Recorded(lane, start, flushed)
    && lane.store.packets == From(lane.accepted, NextCts(start, flushed))
    && lane.sink.ended == None
  }

  /** Both streams committed the same CTS values, the last of which is `flushed`. */
  ghost predicate Paired(a: Lane, b: Lane, start: nat, flushed: Option<nat>) {
    && CtsOf(Kept(a, start, flushed)) == CtsOf(Kept(b, start, flushed))
    && (flushed.Some? ==> start <= flushed.value && HasCts(a.accepted, flushed.value))
  }

  ghost predicate Live(s: Session) {
    && s.range.Some? && s.range.value.start == s.range.value.end
    && LiveLane(s.a, s.range.value.start, s.flushed)
    && LiveLane(s.b, s.range.value.start, s.flushed)
    && Paired(s.a, s.b, s.range.value.start, s.flushed)
  }

  /** What is committed stays a safety window behind both streams. */
  ghost predicate BehindWatermark(s: Session, safety: nat) {
    s.flushed.Some? ==> s.flushed.value + safety <= s.a.maxCts && s.flushed.value + safety <= s.b.maxCts
  }

  /** Nothing below the watermark is left to commit, unless the cadence breaks right after the last commit. */
  ghost predicate Settled(s: Session, safety: nat)
    requires s.range.Some?
  {
    var upper := Watermark(s, safety);
    upper.Some? ==>
      || Selected(s, upper.value).None?
      || (s.flushed.Some? && |s.a.store.packets| > 0 &&
          !OnCadence(s.flushed.value, s.a.store.packets[0].cts, s.step))
  }

  ghost predicate Waiting(s: Session) {
    && s.range.None? && s.flushed.None?
    && LaneOk(s.a) && s.a.store.packets == s.a.accepted && s.a.sink.Untouched()
    && LaneOk(s.b) && s.b.store.packets == s.b.accepted && s.b.sink.Untouched()
  }

  ghost predicate Finished(s: Session) {
    && s.range.Some? && s.flushed == Some(s.range.value.end)
    && Recorded(s.a, s.range.value.start, s.flushed) && s.a.sink.ended == s.flushed
    && Recorded(s.b, s.range.value.start, s.flushed) && s.b.sink.ended == s.flushed
    && Sorted(s.a.accepted) && Sorted(s.b.accepted)
    && Paired(s.a, s.b, s.range.value.start, s.flushed)
  }

  ghost predicate Inv(s: Session, config: Config) {
    && (config.expectedStep != 0 && s.state !in {Stopped, Failed} ==> s.step == config.expectedStep)
    && match s.state
       case Idle => Waiting(s) && s.a.accepted == [] && s.b.accepted == []
       case Starting => Waiting(s) && NoCommonStart(s.a.accepted, s.b.accepted, s.requestedStart)
       case Running => Live(s) && BehindWatermark(s, config.reorderSafety) && Settled(s, config.reorderSafety)
       case Draining => Live(s) && BehindWatermark(s, config.reorderSafety)
       case Stopped => Finished(s)
       case Failed => true
  }

  // ---- accepting a packet

  lemma AcceptKeepsLane(lane: Lane, p: Packet)
    requires LaneOk(lane) && !HasCts(lane.accepted, p.cts)
    requires lane.store.PushOutcome(p) == Retained
    ensures LaneOk(Accepting(lane, p))
    ensures forall q :: q in Accepting(lane, p).accepted <==> q in lane.accepted || q == p
  {
    hide From, UpTo, Insert, SizeOf, DecodeSort;
    PushKeepsStore(lane.store, p);
    InsertSorted(lane.accepted, p);
    InsertMembers(lane.accepted, p);
  }

  lemma NewPacket(lane: Lane, start: nat, flushed: Option<nat>, p: Packet)
    requires LiveLane(lane, start, flushed)
    requires NextCts(start, flushed) <= p.cts && lane.store.PushOutcome(p) == Retained
    ensures !HasCts(lane.accepted, p.cts)
  {
    hide From, UpTo, Insert, SizeOf, DecodeSort;
    FromMembers(lane.accepted, NextCts(start, flushed));
    forall q | q in lane.accepted ensures q.cts != p.cts {
      assert q.cts < p.cts || q in lane.store.packets;
    }
  }

  lemma AcceptKeepsLiveLane(lane: Lane, start: nat, flushed: Option<nat>, p: Packet)
    requires LiveLane(lane, start, flushed)
    requires NextCts(start, flushed) <= p.cts && lane.store.PushOutcome(p) == Retained
    ensures LiveLane(Accepting(lane, p), start, flushed)
    ensures Kept(Accepting(lane, p), start, flushed) == Kept(lane, start, flushed)
    ensures Accepting(lane, p).maxCts >= lane.maxCts
    ensures forall c: nat :: HasCts(lane.accepted, c) ==> HasCts(Accepting(lane, p).accepted, c)
  {
    hide From, UpTo, Insert, SizeOf, DecodeSort;
    NewPacket(lane, start, flushed, p);
    AcceptKeepsLane(lane, p);
    InsertCts(lane.accepted, p);
    FromInsert(lane.accepted, p, NextCts(start, flushed));
    if flushed.Some? {
      BetweenInsert(lane.accepted, p, start, flushed.value);
    }
  }

  lemma AcceptKeepsLive(s: Session, stream: Stream, p: Packet, safety: nat)
    requires Live(s) && BehindWatermark(s, safety)
    requires NextCts(s.range.value.start, s.flushed) <= p.cts
    requires LaneOf(s, stream).store.PushOutcome(p) == Retained
    ensures Live(WithLane(s, stream, Accepting(LaneOf(s, stream), p)))
    ensures BehindWatermark(WithLane(s, stream, Accepting(LaneOf(s, stream), p)), safety)
  {
    AcceptKeepsLiveLane(LaneOf(s, stream), s.range.value.start, s.flushed, p);
  }

  // ---- committing

  lemma LiveStore(lane: Lane, start: nat, flushed: Option<nat>)
    requires LiveLane(lane, start, flushed) && (flushed.Some? ==> start <= flushed.value)
    ensures From(lane.store.packets, start) == lane.store.packets
    ensures From(lane.store.packets, NextCts(start, flushed)) == lane.store.packets
  {
    hide From, UpTo, Insert, SizeOf, DecodeSort;
    FromMembers(lane.accepted, NextCts(start, flushed));
    FromAll(lane.store.packets, start);
    FromAll(lane.store.packets, NextCts(start, flushed));
  }

  lemma KeptExtends(lane: Lane, start: nat, flushed: Option<nat>, cts: nat)
    requires LiveLane(lane, start, flushed) && (flushed.Some? ==> start <= flushed.value)
    requires NextCts(start, flushed) <= cts
    ensures Kept(lane, start, Some(cts)) == Kept(lane, start, flushed) + UpTo(lane.store.packets, cts)
  {
    hide From, UpTo;
    if flushed.Some? {
      BetweenExtends(lane.accepted, start, flushed.value, cts);
    } else {
      var batch := UpTo(lane.store.packets, cts);
      assert [] + batch == batch;
    }
  }

  /** After a commit through `cts`, a lane that received its batch is live again. */
  lemma CommitKeepsLane(lane: Lane, start: nat, flushed: Option<nat>, cts: nat, sink: Sink)
    requires LiveLane(lane, start, flushed) && (flushed.Some? ==> start <= flushed.value)
    requires NextCts(start, flushed) <= cts
    requires sink.written == lane.sink.written + DecodeSort(UpTo(lane.store.packets, cts))
    requires sink.committed == Some(cts) && sink.ended == None && !sink.aborted && sink.openedAt == Some(start)
    ensures LiveLane(lane.(sink := sink, store := lane.store.Discarded(cts + 1)), start, Some(cts))
  {
    hide From, UpTo, DecodeSort;
    DiscardKeepsStore(lane.store, cts + 1);
    FromFrom(lane.accepted, NextCts(start, flushed), cts + 1);
    KeptExtends(lane, start, flushed, cts);
    DecodeSortPermutes(UpTo(lane.store.packets, cts));
  }

  lemma ContainedByCts(x: seq<Packet>, y: seq<Packet>, z: seq<Packet>)
    requires CtsOf(x) == CtsOf(y) && forall q :: q in y ==> q in z
    ensures Contained(x, z)
  {
    forall q | q in x ensures HasCts(z, q.cts) {
      var i :| 0 <= i < |x| && x[i] == q;
      assert CtsOf(x)[i] == CtsOf(y)[i];
      assert y[i] in y && y[i] in z;
    }
  }

  lemma SelectedBatches(x: seq<Packet>, y: seq<Packet>, start: nat, cts: nat, step: nat)
    requires Sorted(x) && Sorted(y) && From(x, start) == x && From(y, start) == y
    requires PrefixEnd(x, y, start, cts, step) == Some(cts)
    ensures Contained(UpTo(x, cts), y) && Contained(UpTo(y, cts), x)
    ensures CtsOf(UpTo(x, cts)) == CtsOf(UpTo(y, cts))
    ensures HasCts(x, cts)
  {
    hide From, UpTo, Insert, SizeOf, DecodeSort;
    PrefixAgrees(x, y, start, cts, step);
    UpToMembers(x, cts);
    UpToMembers(y, cts);
    ContainedByCts(UpTo(x, cts), UpTo(y, cts), y);
    ContainedByCts(UpTo(y, cts), UpTo(x, cts), x);
  }

  /** The second selection and both containment scans of `FlushThrough` accept what was selected. */
  lemma FlushAccepts(s: Session, cts: nat)
    requires Live(s) && Inferred(s) == s && NextCts(s.range.value.start, s.flushed) <= cts
    requires Selected(s, cts) == Some(cts)
    ensures FlushedThrough(s, cts) == Committed(s, cts, DecodeSort(UpTo(s.a.store.packets, cts)),
                                                DecodeSort(UpTo(s.b.store.packets, cts)))
    ensures CtsOf(UpTo(s.a.store.packets, cts)) == CtsOf(UpTo(s.b.store.packets, cts))
    ensures HasCts(s.a.store.packets, cts)
  {
    hide From, UpTo, Insert, SizeOf, DecodeSort;
    var start := s.range.value.start;
    var x, y := s.a.store.packets, s.b.store.packets;
    LiveStore(s.a, start, s.flushed);
    LiveStore(s.b, start, s.flushed);
    SelectedBatches(x, y, start, cts, s.step);
    assert Frontier(s) == NextCts(start, s.flushed);
    assert Between(x, Frontier(s), cts) == UpTo(x, cts) && Between(y, Frontier(s), cts) == UpTo(y, cts);
  }

  /** A commit of paired batches either fails at a sink or extends both sinks by the same CTS values. */
  lemma CommittedIsLive(s: Session, cts: nat)
    requires Live(s) && NextCts(s.range.value.start, s.flushed) <= cts && s.state != Failed
    requires CtsOf(UpTo(s.a.store.packets, cts)) == CtsOf(UpTo(s.b.store.packets, cts))
    requires HasCts(s.a.store.packets, cts)
    requires |UpTo(s.a.store.packets, cts)| < s.a.sink.budget && |UpTo(s.b.store.packets, cts)| < s.b.sink.budget
    ensures Live(Committed(s, cts, DecodeSort(UpTo(s.a.store.packets, cts)), DecodeSort(UpTo(s.b.store.packets, cts))))
  {
    hide From, UpTo, Insert, SizeOf, DecodeSort;
    var start := s.range.value.start;
    DecodeSortPermutes(UpTo(s.a.store.packets, cts));
    DecodeSortPermutes(UpTo(s.b.store.packets, cts));
    var t := Committed(s, cts, DecodeSort(UpTo(s.a.store.packets, cts)), DecodeSort(UpTo(s.b.store.packets, cts)));
    CommitKeepsLane(s.a, start, s.flushed, cts, t.a.sink);
    CommitKeepsLane(s.b, start, s.flushed, cts, t.b.sink);
    CommitKeepsPaired(s, cts);
  }

  lemma CommitKeepsPaired(s: Session, cts: nat)
    requires Live(s) && NextCts(s.range.value.start, s.flushed) <= cts
    requires CtsOf(UpTo(s.a.store.packets, cts)) == CtsOf(UpTo(s.b.store.packets, cts))
    requires HasCts(s.a.store.packets, cts)
    ensures Paired(s.a, s.b, s.range.value.start, Some(cts))
  {
    hide From, UpTo, Insert, SizeOf, DecodeSort;
    var start := s.range.value.start;
    KeptExtends(s.a, start, s.flushed, cts);
    KeptExtends(s.b, start, s.flushed, cts);
    CtsConcat(Kept(s.a, start, s.flushed), UpTo(s.a.store.packets, cts));
    CtsConcat(Kept(s.b, start, s.flushed), UpTo(s.b.store.packets, cts));
    FromMembers(s.a.accepted, NextCts(start, s.flushed));
  }

  /** Some sink does not take its batch through `cts` and the commit after it. */
  ghost predicate Starved(s: Session, cts: nat) {
    |UpTo(s.a.store.packets, cts)| >= s.a.sink.budget || |UpTo(s.b.store.packets, cts)| >= s.b.sink.budget
  }

  /** The sink received the packets in one batch, in stable decode order, after what it held. */
  ghost predicate SinkTook(before: Sink, after: Sink, packets: seq<Packet>) {
    && |before.written| <= |after.written| && after.written[..|before.written|] == before.written
    && StableSortOf(after.written[|before.written|..], packets)
  }

  lemma TookSorted(before: Sink, after: Sink, packets: seq<Packet>)
    requires after.written == before.written + DecodeSort(packets)
    ensures SinkTook(before, after, packets)
  {
    hide DecodeSort, StableSortOf;
    DecodeSortIsStable(packets);
    assert after.written[|before.written|..] == DecodeSort(packets);
  }

  /** What a flush through a selected CTS does: it fails at a sink, or it leaves the session live. */
  lemma FlushKeepsLive(s: Session, cts: nat)
    requires Live(s) && Inferred(s) == s && NextCts(s.range.value.start, s.flushed) <= cts
    requires Selected(s, cts) == Some(cts) && s.state != Failed
    ensures var t := FlushedThrough(s, cts);
            && (t.state == Failed <==> Starved(s, cts)) && (t.state == Failed ==> t.failure == SinkWrite)
            && (t.state != Failed ==>
                  && Live(t)
                  && t == s.(a := s.a.(sink := t.a.sink, store := s.a.store.Discarded(cts + 1)),
                             b := s.b.(sink := t.b.sink, store := s.b.store.Discarded(cts + 1)),
                             flushed := Some(cts))
                  && SinkTook(s.a.sink, t.a.sink, UpTo(s.a.store.packets, cts))
                  && SinkTook(s.b.sink, t.b.sink, UpTo(s.b.store.packets, cts))
                  && t.a.sink.budget + |UpTo(s.a.store.packets, cts)| + 1 == s.a.sink.budget
                  && t.b.sink.budget + |UpTo(s.b.store.packets, cts)| + 1 == s.b.sink.budget)
  {
    hide From, UpTo, Insert, SizeOf, DecodeSort;
    FlushAccepts(s, cts);
    DecodeSortPermutes(UpTo(s.a.store.packets, cts));
    DecodeSortPermutes(UpTo(s.b.store.packets, cts));
    if FlushedThrough(s, cts).state != Failed {
      CommittedIsLive(s, cts);
      hide SinkTook, Live;
      TookSorted(s.a.sink, FlushedThrough(s, cts).a.sink, UpTo(s.a.store.packets, cts));
      TookSorted(s.b.sink, FlushedThrough(s, cts).b.sink, UpTo(s.b.store.packets, cts));
    }
  }

  // ---- the running flush

  /** Cadence inference is a projection: it never changes a step it has found. */
  lemma InferredTwice(s: Session)
    ensures Inferred(Inferred(s)) == Inferred(s)
  {
  }

  lemma InferredKeepsLive(s: Session)
    requires Live(s)
    ensures Live(Inferred(s))
    ensures s.step != 0 ==> Inferred(s) == s
  {
  }

  /** Whatever is committed next is new. */
  lemma SelectedIsNew(s: Session, upper: nat)
    requires Live(s) && Selected(s, upper).Some?
    ensures NextCts(s.range.value.start, s.flushed) <= Selected(s, upper).value <= upper
    ensures Selected(s, Selected(s, upper).value) == Selected(s, upper)
  {
    hide From, UpTo;
    var start, x, y := s.range.value.start, s.a.store.packets, s.b.store.packets;
    PrefixEndIdempotent(x, y, start, upper, s.step);
    SelectedMember(s, upper);
    FromMembers(s.a.accepted, NextCts(start, s.flushed));
  }

  lemma SelectedMember(s: Session, upper: nat)
    requires Live(s) && Selected(s, upper).Some?
    ensures HasCts(s.a.store.packets, Selected(s, upper).value) && HasCts(s.b.store.packets, Selected(s, upper).value)
  {
    hide From, UpTo;
    var start, x, y := s.range.value.start, s.a.store.packets, s.b.store.packets;
    PrefixAgrees(x, y, start, upper, s.step);
    FromMembers(x, start);
    FromMembers(y, start);
    var k := PrefixLength(CtsOf(From(x, start)), CtsOf(From(y, start)), upper, s.step);
    assert From(x, start)[k - 1] in From(x, start) && From(y, start)[k - 1] in From(y, start);
  }

  lemma NothingLeftCts(x: seq<nat>, y: seq<nat>, upper: nat, step: nat)
    ensures var k := PrefixLength(x, y, upper, step);
            k > 0 && PrefixLength(x[k..], y[k..], upper, step) > 0 ==> k < |x| && !OnCadence(x[k - 1], x[k], step)
  {
    var k := PrefixLength(x, y, upper, step);
    assert !CommonPrefix(x, y, upper, step, k + 1);
    if k > 0 && PrefixLength(x[k..], y[k..], upper, step) > 0 {
      assert x[k..][0] == x[k] && y[k..][0] == y[k];
    }
  }

  /** After the longest prefix is gone, a new one can only start across a break in the cadence. */
  lemma NothingLeft(x: seq<Packet>, y: seq<Packet>, start: nat, upper: nat, step: nat)
    requires Sorted(x) && Sorted(y) && From(x, start) == x && From(y, start) == y
    requires PrefixEnd(x, y, start, upper, step).Some?
    ensures var cts := PrefixEnd(x, y, start, upper, step).value;
            var x', y' := From(x, cts + 1), From(y, cts + 1);
            PrefixEnd(x', y', start, upper, step).Some? ==> |x'| > 0 && !OnCadence(cts, x'[0].cts, step)
  {
    hide From, UpTo, OnCadence;
    PrefixAgrees(x, y, start, upper, step);
    var k := PrefixLength(CtsOf(x), CtsOf(y), upper, step);
    var cts := x[k - 1].cts;
    CutAt(x, cts + 1, k);
    CutAt(y, cts + 1, k);
    StartedAt(x, start, k);
    StartedAt(y, start, k);
    assert CtsOf(x[k..]) == CtsOf(x)[k..] && CtsOf(y[k..]) == CtsOf(y)[k..];
    NothingLeftCts(CtsOf(x), CtsOf(y), upper, step);
  }

  lemma StartedAt(x: seq<Packet>, start: nat, k: nat)
    requires From(x, start) == x && k <= |x|
    ensures From(x[k..], start) == x[k..]
  {
    hide From;
    FromMembers(x, start);
    FromAll(x[k..], start);
  }

  lemma FlushLeavesSettled(s: Session, cts: nat, upper: nat, safety: nat, t: Session)
    requires Live(s) && Live(t)
    requires Watermark(s, safety) == Some(upper) && Selected(s, upper) == Some(cts)
    requires t == s.(a := s.a.(sink := t.a.sink, store := s.a.store.Discarded(cts + 1)),
                     b := s.b.(sink := t.b.sink, store := s.b.store.Discarded(cts + 1)),
                     flushed := Some(cts))
    ensures Settled(t, safety)
  {
    hide From, UpTo, SizeOf;
    LiveStore(s.a, s.range.value.start, s.flushed);
    LiveStore(s.b, s.range.value.start, s.flushed);
    NothingLeft(s.a.store.packets, s.b.store.packets, s.range.value.start, upper, s.step);
    assert Watermark(t, safety) == Some(upper);
  }

  /** The CTS through which a running flush commits. */
  ghost function StableCts(s: Session, safety: nat): Option<nat>
    requires s.range.Some?
  {
    var t := Inferred(s);
    match Watermark(t, safety)
    case None => None
    case Some(upper) => Selected(t, upper)
  }

  /** A running flush fails. */
  ghost predicate FlushStarves(s: Session, safety: nat)
    requires s.range.Some?
  {
    StableCts(s, safety).Some? && Starved(s, StableCts(s, safety).value)
  }

  /** A running flush keeps the invariant or fails at a sink; it never reports `RangeMismatch`. */
  lemma StableFlushKeepsInv(s: Session, config: Config)
    requires s.state == Running && Live(s) && BehindWatermark(s, config.reorderSafety)
    requires config.expectedStep != 0 ==> s.step == config.expectedStep
    ensures var t := StableFlushed(s, config.reorderSafety);
            && (t.state == Failed <==> FlushStarves(s, config.reorderSafety))
            && (t.state == Failed ==> t.failure == SinkWrite)
            && (t.state != Failed ==> t.state == Running && Inv(t, config))
  {
    hide LiveLane, Paired, UpTo, Selected, FlushedThrough, Settled;
    var t, safety := Inferred(s), config.reorderSafety;
    InferredTwice(s);
    InferredKeepsLive(s);
    var upper := Watermark(t, safety);
    if upper.Some? && Selected(t, upper.value).Some? {
      StableCommit(t, safety, upper.value, Selected(t, upper.value).value);
    } else {
      NothingStable(t, safety);
    }
  }

  lemma NothingStable(s: Session, safety: nat)
    requires Live(s) && (Watermark(s, safety).Some? ==> Selected(s, Watermark(s, safety).value).None?)
    ensures Settled(s, safety)
  {
  }

  lemma StableCommit(s: Session, safety: nat, upper: nat, cts: nat)
    requires Live(s) && Inferred(s) == s && s.state != Failed
    requires Watermark(s, safety) == Some(upper) && Selected(s, upper) == Some(cts)
    ensures s.flushed.Some? ==> s.flushed.value < cts
    ensures var t := FlushedThrough(s, cts);
            && (t.state == Failed <==> Starved(s, cts)) && (t.state == Failed ==> t.failure == SinkWrite)
            && (t.state != Failed ==>
                  t.state == s.state && Live(t) && Settled(t, safety) && BehindWatermark(t, safety) && t.step == s.step)
  {
    hide From, UpTo, SizeOf, DecodeSort, Settled, FlushedThrough, LiveLane, Paired, Selected;
    SelectedIsNew(s, upper);
    FlushKeepsLive(s, cts);
    var t := FlushedThrough(s, cts);
    if t.state != Failed {
      FlushLeavesSettled(s, cts, upper, safety, t);
    }
  }
}
