/** What the two-stream recording session guarantees over every run. */
module RecordingTheorems {
  import opened Packets
  import opened DecodeOrder
  import opened PacketBuffer
  import opened CommonRange
  import opened PacketSinks
  import opened RecordingModel
  import opened RecordingInvariant

  // ---- every call keeps the invariant

  lemma NewestSurvives(s: seq<Packet>, c: nat)
    requires Sorted(s) && HasCts(s, c)
    ensures |From(s, c)| > 0 && MaxCts(From(s, c)) == MaxCts(s)
  {
    hide From;
    var n := |s| - 1;
    Snoc(s);
    SortedInit(s);
    FromSnoc(s[..n], s[n], c);
  }

  lemma OpenedLane(lane: Lane, c: nat, sink: Sink, limit: nat)
    requires LaneOk(lane) && lane.store.packets == lane.accepted && lane.sink.Untouched()
    requires KeyframeAt(lane.accepted, c) && lane.store.Discarded(c).bytes <= limit
    requires lane.sink.budget > 0 && sink == lane.sink.Opened(c)
    ensures var store := lane.store.Discarded(c).Resized(limit);
            LiveLane(lane.(store := store, sink := sink, maxCts := NewestOr(store, c)), c, None)
  {
    hide From, SizeOf;
    DiscardKeepsStore(lane.store, c);
    NewestSurvives(lane.accepted, c);
  }

  /** The session at the moment its first flush begins: both stores cut at the common start, both sinks open. */
  ghost function Begun(s: Session, c: nat, limit: nat): Session
    requires s.a.sink.budget > 0 && s.b.sink.budget > 0
  {
    var storeA, storeB := s.a.store.Discarded(c).Resized(limit), s.b.store.Discarded(c).Resized(limit);
    s.(state := Running, range := Some(Range(c, c)),
       a := s.a.(store := storeA, sink := s.a.sink.Opened(c), maxCts := NewestOr(storeA, c)),
       b := s.b.(store := storeB, sink := s.b.sink.Opened(c), maxCts := NewestOr(storeB, c)))
  }

  ghost predicate TooMuchTail(s: Session, c: nat, limit: nat) {
    s.a.store.Discarded(c).bytes > limit || s.b.store.Discarded(c).bytes > limit
  }

  /** Why an election with a common start at `c` fails. */
  ghost function StartFailure(s: Session, c: nat, config: Config): Option<Failure> {
    if TooMuchTail(s, c, config.tailCapacity) then Some(BufferCapacity)
    else if s.a.sink.budget == 0 || s.b.sink.budget == 0 then Some(SinkOpen)
    else if FlushStarves(Inferred(Begun(s, c, config.tailCapacity)), config.reorderSafety) then Some(SinkWrite)
    else None
  }

  lemma BegunIsLive(s: Session, c: nat, limit: nat)
    requires Waiting(s) && KeyframeAt(s.a.accepted, c) && KeyframeAt(s.b.accepted, c)
    requires !TooMuchTail(s, c, limit) && s.a.sink.budget > 0 && s.b.sink.budget > 0
    ensures Live(Begun(s, c, limit))
  {
    hide From, UpTo, SizeOf;
    OpenedLane(s.a, c, s.a.sink.Opened(c), limit);
    OpenedLane(s.b, c, s.b.sink.Opened(c), limit);
  }

  lemma EstablishFails(s: Session, c: nat, config: Config)
    requires CommonStart(s.a.store.packets, s.b.store.packets, s.requestedStart) == Some(c)
    ensures var t := Established(s, config);
            if TooMuchTail(s, c, config.tailCapacity) then t.state == Failed && t.failure == BufferCapacity
            else if s.a.sink.budget == 0 || s.b.sink.budget == 0 then t.state == Failed && t.failure == SinkOpen
            else t == StableFlushed(Inferred(Begun(s, c, config.tailCapacity)), config.reorderSafety)
  {
    hide From, UpTo, SizeOf, CommonStart, StableFlushed, FirstStep;
  }

  /** The election: it keeps waiting, it starts at the least common keyframe, or it fails for the stated reason. */
  lemma EstablishKeepsInv(s: Session, config: Config)
    requires s.state == Starting && Waiting(s)
    requires config.expectedStep != 0 ==> s.step == config.expectedStep
    ensures var t, c := Established(s, config), CommonStart(s.a.accepted, s.b.accepted, s.requestedStart);
            && (c.None? ==> t == s && Inv(t, config))
            && (c.Some? ==>
                  var failure := StartFailure(s, c.value, config);
                  if failure.Some? then t.state == Failed && t.failure == failure.value
                  else t.state == Running && Inv(t, config) && t.range.value.start == c.value)
  {
    hide From, UpTo, SizeOf, LiveLane, StableFlushed, Settled, FlushStarves, Established, InferredStep, Paired;
    var c := CommonStart(s.a.accepted, s.b.accepted, s.requestedStart);
    if c.None? {
      StillWaiting(s, config);
    } else {
      EstablishFails(s, c.value, config);
      if !TooMuchTail(s, c.value, config.tailCapacity) && s.a.sink.budget > 0 && s.b.sink.budget > 0 {
        BegunIsLive(s, c.value, config.tailCapacity);
        var u := Begun(s, c.value, config.tailCapacity);
        InferredKeepsLive(u);
        StableFlushKeepsInv(Inferred(u), config);
      }
    }
  }

  lemma StillWaiting(s: Session, config: Config)
    requires s.state == Starting && Waiting(s)
    requires CommonStart(s.a.accepted, s.b.accepted, s.requestedStart).None?
    ensures Established(s, config) == s && NoCommonStart(s.a.accepted, s.b.accepted, s.requestedStart)
  {
  }

  // ---- a packet is submitted

  /** The session takes packets, and this one is neither below its start nor already passed by a commit. */
  ghost predicate Arrives(s: Session, p: Packet) {
    s.state in {Starting, Running, Draining} && (s.range.Some? ==> NextCts(s.range.value.start, s.flushed) <= p.cts)
  }

  ghost predicate Late(s: Session, p: Packet) {
    && s.state in {Running, Draining} && s.range.Some? && s.flushed.Some?
    && s.range.value.start <= p.cts <= s.flushed.value
  }

  /** Why a packet that arrives is not retained. */
  ghost function Refusal(lane: Lane, p: Packet): Option<Failure> {
    if p.tbNum <= 0 || p.tbDen <= 0 then Some(PacketTiming)
    else if HasCts(lane.accepted, p.cts) then Some(RepeatedCts)
    else if lane.store.bytes + p.size > lane.store.capacity then Some(BufferCapacity)
    else None
  }

  /** Why the call that retains a packet fails all the same: the start it allows, or the flush it allows. */
  ghost function Aftermath(s: Session, config: Config, stream: Stream, p: Packet): Option<Failure> {
    var t := WithLane(s, stream, Accepting(LaneOf(s, stream), p));
    if s.state == Starting then
      match CommonStart(t.a.accepted, t.b.accepted, s.requestedStart)
      case None => None
      case Some(c) => StartFailure(t, c, config)
    else if s.state == Running && s.range.Some? && FlushStarves(t, config.reorderSafety) then Some(SinkWrite)
    else None
  }

  /** Every cause for which a submission fails, in order. */
  ghost function SubmitFailure(s: Session, config: Config, stream: Stream, p: Packet): Option<Failure> {
    if s.state in {Idle, Stopped, Failed} then Some(InvalidTransition)
    else if Late(s, p) then Some(LatePacket)
    else if !Arrives(s, p) then None
    else if Refusal(LaneOf(s, stream), p).Some? then Refusal(LaneOf(s, stream), p)
    else Aftermath(s, config, stream, p)
  }

  lemma RefusalExactly(s: Session, config: Config, stream: Stream, p: Packet)
    requires Inv(s, config) && Arrives(s, p)
    ensures var lane := LaneOf(s, stream);
            Refusal(lane, p) == (match lane.store.PushOutcome(p)
                                 case Retained => None
                                 case MissingTiming => Some(PacketTiming)
                                 case DuplicateSourceCts => Some(RepeatedCts)
                                 case Capacity => Some(BufferCapacity))
  {
    hide From, SizeOf, Settled, Paired, CommonStart;
    var lane := LaneOf(s, stream);
    if s.state != Starting {
      FromMembers(lane.accepted, NextCts(s.range.value.start, s.flushed));
    }
  }

  lemma AcceptKeepsInv(s: Session, config: Config, stream: Stream, p: Packet)
    requires Inv(s, config) && Arrives(s, p) && LaneOf(s, stream).store.PushOutcome(p) == Retained
    ensures var t, failure := Submitted(s, config, stream, p), Aftermath(s, config, stream, p);
            if failure.Some? then t.state == Failed && t.failure == failure.value
            else t.state in {Starting, Running, Draining} && Inv(t, config)
  {
    hide From, UpTo, Insert, SizeOf, Established, StableFlushed, StartFailure, FlushStarves, Settled, CommonStart;
    var t := WithLane(s, stream, Accepting(LaneOf(s, stream), p));
    if s.state == Starting {
      AcceptKeepsLane(LaneOf(s, stream), p);
      EstablishKeepsInv(t, config);
    } else {
      AcceptKeepsLive(s, stream, p, config.reorderSafety);
      if s.state == Running {
        StableFlushKeepsInv(t, config);
      }
    }
  }

  lemma RefusedKeepsInv(s: Session, config: Config, stream: Stream, p: Packet)
    requires Inv(s, config) && !(Arrives(s, p) && LaneOf(s, stream).store.PushOutcome(p) == Retained)
    ensures var t := Submitted(s, config, stream, p);
            && Inv(t, config)
            && (if s.state in {Idle, Stopped, Failed} then t.state == Failed && t.failure == InvalidTransition
                else if Late(s, p) then t.state == Failed && t.failure == LatePacket
                else if !Arrives(s, p) then t == s
                else t.state == Failed && t.failure == (match LaneOf(s, stream).store.PushOutcome(p)
                                                        case MissingTiming => PacketTiming
                                                        case DuplicateSourceCts => RepeatedCts
                                                        case _ => BufferCapacity))
  {
    hide From, UpTo, SizeOf, Settled, LiveLane, Kept, Established, StableFlushed, CommonStart;
  }

  /** `SubmitPacket` keeps the invariant, and it fails exactly if there is a cause, with the first one. */
  lemma SubmitKeepsInv(s: Session, config: Config, stream: Stream, p: Packet)
    requires Inv(s, config)
    ensures var t, failure := Submitted(s, config, stream, p), SubmitFailure(s, config, stream, p);
            && Inv(t, config)
            && (t.state == Failed <==> failure.Some?)
            && (failure.Some? ==> t.failure == failure.value)
  {
    hide Submitted, Inv, Aftermath, Refusal;
    if Arrives(s, p) {
      RefusalExactly(s, config, stream, p);
    }
    if Arrives(s, p) && LaneOf(s, stream).store.PushOutcome(p) == Retained {
      AcceptKeepsInv(s, config, stream, p);
      if Submitted(s, config, stream, p).state == Failed {
        FailedIsFine(Submitted(s, config, stream, p), config);
      }
    } else {
      RefusedKeepsInv(s, config, stream, p);
    }
  }

  lemma FailedIsFine(s: Session, config: Config)
    requires s.state == Failed
    ensures Inv(s, config)
  {
  }

  // ---- the drain

  /** The CTS values the drain would commit: the rest of the common prefix up to the requested stop. */
  ghost function Leftover(s: Session): seq<nat>
    requires s.range.Some?
  {
    var x := CtsOf(From(s.a.store.packets, s.range.value.start));
    var y := CtsOf(From(s.b.store.packets, s.range.value.start));
    x[..PrefixLength(x, y, s.requestedStop, s.step)]
  }

  ghost predicate BreaksCadence(x: seq<nat>, step: nat) {
    exists i :: 1 <= i < |x| && !OnCadence(x[i - 1], x[i], step)
  }

  lemma ReselectCts(a: seq<nat>, b: seq<nat>, upper: nat, step: nat)
    requires forall i, j :: 0 <= i < j < |a| ==> a[i] < a[j]
    requires PrefixLength(a, b, upper, 0) > 0
    ensures var k := PrefixLength(a, b, upper, 0);
            var j := PrefixLength(a, b, a[k - 1], step);
            (j > 0 && a[j - 1] == a[k - 1]) <==> (forall i :: 1 <= i < k ==> OnCadence(a[i - 1], a[i], step))
  {
    var k := PrefixLength(a, b, upper, 0);
    var end := a[k - 1];
    var j := PrefixLength(a, b, end, step);
    assert j > 0 && a[j - 1] == end ==> j == k;
    if forall i :: 1 <= i < k ==> OnCadence(a[i - 1], a[i], step) {
      assert CommonPrefix(a, b, end, step, k);
      PrefixLengthIs(a, b, end, step, k);
    }
  }

  /** Re-selecting an already selected prefix under another step succeeds exactly if the prefix keeps that cadence. */
  lemma ReselectUnderStep(x: seq<Packet>, y: seq<Packet>, start: nat, upper: nat, step: nat)
    requires Sorted(x) && PrefixEnd(x, y, start, upper, 0).Some?
    ensures var end := PrefixEnd(x, y, start, upper, 0);
            var a, b := CtsOf(From(x, start)), CtsOf(From(y, start));
            (PrefixEnd(x, y, start, end.value, step) == end) <==>
            !BreaksCadence(a[..PrefixLength(a, b, upper, 0)], step)
  {
    hide From;
    var a, b := CtsOf(From(x, start)), CtsOf(From(y, start));
    FromMembers(x, start);
    ReselectCts(a, b, upper, step);
    var k := PrefixLength(a, b, upper, 0);
    var run := a[..k];
    forall i | 1 <= i < k ensures OnCadence(run[i - 1], run[i], step) <==> OnCadence(a[i - 1], a[i], step) {
      assert run[i] == a[i] && run[i - 1] == a[i - 1];
    }
  }

  ghost predicate Mismatches(s: Session)
    requires s.range.Some?
  {
    s.step == 0 && BreaksCadence(Leftover(s), InferredStep(s))
  }

  /** Some sink takes its batch through `cts` and the commit, but not the call that ends the recording. */
  ghost predicate EndStarved(s: Session, cts: nat) {
    || |UpTo(s.a.store.packets, cts)| + 1 >= s.a.sink.budget
    || |UpTo(s.b.store.packets, cts)| + 1 >= s.b.sink.budget
  }

  /** Every cause for which a drain fails, in order. */
  ghost function DrainFailure(s: Session): Option<Failure>
    requires s.range.Some?
  {
    match Selected(s, s.requestedStop)
    case None =>
      if s.flushed.None? && s.requestedStop < s.range.value.start then Some(MissingCommonRange)
      else if s.a.sink.budget == 0 || s.b.sink.budget == 0 then Some(SinkFinalize)
      else None
    case Some(cts) =>
      if Mismatches(s) then Some(RangeMismatch)
      else if Starved(s, cts) then Some(SinkWrite)
      else if EndStarved(s, cts) then Some(SinkFinalize)
      else None
  }

  ghost predicate DrainsExactly(s: Session, t: Session)
    requires s.range.Some?
  {
    var failure := DrainFailure(s);
    if failure.Some? then t.state == Failed && t.failure == failure.value else t.state == Stopped && Finished(t)
  }

  /** Finalizing a live session at its last commit. */
  lemma FinalizeExactly(t: Session)
    requires Live(t) && t.flushed.Some?
    ensures var u := Finalized(t, t.flushed.value);
            if t.a.sink.budget == 0 || t.b.sink.budget == 0 then u.state == Failed && u.failure == SinkFinalize
            else u.state == Stopped && Finished(u)
  {
    hide From, UpTo, SizeOf, Between;
  }

  /** A drain with a candidate commits and finalizes it, or reports the cadence break, or fails at a sink. */
  lemma DrainCandidate(s: Session, config: Config, cts: nat)
    requires Inv(s, config) && s.state == Draining && Selected(s, s.requestedStop) == Some(cts)
    ensures DrainsExactly(s, Drained(s))
  {
    hide From, UpTo, SizeOf, DecodeSort, RecordingModel.Committed, InferredStep, PrefixEnd, Finalized, Finished,
         LiveLane, Kept, Leftover, BreaksCadence;
    SelectedIsNew(s, s.requestedStop);
    InferredTwice(s);
    InferredKeepsLive(s);
    var u := Inferred(s);
    ReselectsExactly(s, cts);
    if Selected(u, cts) == Some(cts) {
      FlushKeepsLive(u, cts);
      var t := FlushedThrough(u, cts);
      assert FlushedThrough(s, cts) == t;
      if t.state != Failed {
        FinalizeExactly(t);
      }
    } else {
      assert FlushedThrough(s, cts) == u.Failing(RangeMismatch);
    }
  }

  /** The second selection, under the inferred step, fails exactly if the chosen run breaks that cadence. */
  lemma ReselectsExactly(s: Session, cts: nat)
    requires Live(s) && Selected(s, s.requestedStop) == Some(cts)
    ensures Selected(Inferred(s), cts) == Some(cts) <==> !Mismatches(s)
  {
    hide From, SizeOf, PrefixEnd, InferredStep, Paired;
    SelectedIsNew(s, s.requestedStop);
    if s.step == 0 {
      ReselectUnderStep(s.a.store.packets, s.b.store.packets, s.range.value.start, s.requestedStop, InferredStep(s));
    } else {
      InferredKeepsLive(s);
    }
  }

  lemma NoCandidate(s: Session)
    requires Live(s) && Selected(s, s.requestedStop).None?
    ensures !Mismatches(s) && (s.flushed.None? ==> s.requestedStop < s.range.value.start)
  {
    hide From, UpTo, SizeOf, Between;
    assert Leftover(s) == [];
    if s.flushed.None? {
      StartIsStored(s.a, s.range.value.start);
      StartIsStored(s.b, s.range.value.start);
      FirstIsCommon(s, s.requestedStop);
    }
  }

  /** A drain without a candidate finalizes the last commit, if there is one. */
  lemma DrainNothing(s: Session, config: Config)
    requires Inv(s, config) && s.state == Draining && Selected(s, s.requestedStop).None?
    ensures DrainsExactly(s, Drained(s))
  {
    hide From, UpTo, SizeOf, Between, Finalized, Finished, LiveLane, Selected, Mismatches;
    NoCandidate(s);
    if s.flushed.Some? {
      FinalizeExactly(s);
    }
  }

  /** What `CompleteDrain` does from `Draining`: it fails exactly if there is a cause, with the first one; otherwise
      both sinks are finalized at one CTS. The cadence break and the missing range in terms of the state alone. */
  lemma DrainOutcome(s: Session, config: Config)
    requires Inv(s, config) && s.state == Draining
    ensures DrainsExactly(s, Drained(s))
    ensures DrainFailure(s) == Some(RangeMismatch) <==> Mismatches(s)
    ensures DrainFailure(s) == Some(MissingCommonRange) <==> s.flushed.None? && s.requestedStop < s.range.value.start
  {
    hide DrainsExactly, LiveLane, Mismatches, Kept, Selected;
    var candidate := Selected(s, s.requestedStop);
    if candidate.Some? {
      SelectedIsNew(s, s.requestedStop);
      DrainCandidate(s, config, candidate.value);
    } else {
      NoCandidate(s);
      DrainNothing(s, config);
    }
  }

  lemma DrainKeepsInv(s: Session, config: Config)
    requires Inv(s, config)
    ensures Inv(Drained(s), config)
  {
    hide FlushedThrough, From, LiveLane, Paired, Finished;
    if s.state == Draining {
      DrainOutcome(s, config);
    }
  }

  lemma StartIsStored(lane: Lane, start: nat)
    requires LiveLane(lane, start, None)
    ensures From(lane.store.packets, start) == lane.store.packets
    ensures |lane.store.packets| > 0 && lane.store.packets[0].cts == start
  {
    hide From;
    FromMembers(lane.accepted, start);
    FromAll(lane.store.packets, start);
    var q :| q in lane.accepted && q.cts == start;
    assert q in lane.store.packets;
    var i :| 0 <= i < |lane.store.packets| && lane.store.packets[i] == q;
    assert lane.store.packets[0] in lane.store.packets;
  }

  /** A selection is non-empty exactly when both stores begin with the same CTS at or below the bound;
      neither the last commit nor the cadence has a say. */
  lemma FirstIsCommon(s: Session, upper: nat)
    requires s.range.Some?
    requires From(s.a.store.packets, s.range.value.start) == s.a.store.packets
    requires From(s.b.store.packets, s.range.value.start) == s.b.store.packets
    ensures Selected(s, upper).Some? <==>
              && |s.a.store.packets| > 0 && |s.b.store.packets| > 0
              && s.a.store.packets[0].cts == s.b.store.packets[0].cts <= upper
  {
    var x, y := CtsOf(s.a.store.packets), CtsOf(s.b.store.packets);
    assert CommonPrefix(x, y, upper, s.step, 1) <==> |x| > 0 && |y| > 0 && x[0] == y[0] <= upper;
  }

  // ---- whole runs

  lemma StepKeepsInv(s: Session, config: Config, event: Event)
    requires Inv(s, config)
    ensures Inv(After(s, config, event), config)
  {
    hide Submitted, Polled, Drained, From, SizeOf, Settled, LiveLane, Paired, Finished;
    match event
    case Start(_) =>
    case Submit(stream, packet) => SubmitKeepsInv(s, config, stream, packet);
    case Poll(currentCts) => PollDoesNothing(s, config, currentCts);
    case RequestStop(_) =>
    case CompleteDrain => DrainKeepsInv(s, config);
    case Abort =>
  }

  lemma InitialInv(config: Config, budgetA: nat, budgetB: nat)
    ensures Inv(Initial(config, budgetA, budgetB), config)
  {
  }

  lemma {:induction false} RunKeepsInv(s: Session, config: Config, events: seq<Event>)
    requires Inv(s, config)
    ensures Inv(Run(s, config, events), config)
  {
    if |events| > 0 {
      RunKeepsInv(s, config, events[..|events| - 1]);
      StepKeepsInv(Run(s, config, events[..|events| - 1]), config, events[|events| - 1]);
    }
  }

  ghost function Reached(config: Config, budgetA: nat, budgetB: nat, events: seq<Event>): Session {
    Run(Initial(config, budgetA, budgetB), config, events)
  }

  /** Every packet of the lane that was accepted in [start, flushed] was written to its sink, once; nothing else was. */
  ghost predicate WroteExactly(lane: Lane, start: nat, flushed: Option<nat>) {
    && (forall q :: q in lane.sink.written <==>
          q in lane.accepted && flushed.Some? && start <= q.cts <= flushed.value)
    && (forall q :: multiset(lane.sink.written)[q] <= 1)
    && (forall q, r :: q in lane.sink.written && r in lane.sink.written && q.cts == r.cts ==> q == r)
  }

  lemma {:induction false} SortedOnce(s: seq<Packet>)
    requires Sorted(s)
    ensures forall q :: multiset(s)[q] <= 1
    ensures forall q, r :: q in s && r in s && q.cts == r.cts ==> q == r
  {
    if |s| > 0 {
      Snoc(s);
      SortedInit(s);
      SortedOnce(s[..|s| - 1]);
    }
  }

  lemma RecordedExactly(lane: Lane, start: nat, flushed: Option<nat>)
    requires Sorted(lane.accepted) && Recorded(lane, start, flushed)
    ensures WroteExactly(lane, start, flushed)
  {
    hide From, UpTo, Between;
    var kept := Kept(lane, start, flushed);
    if flushed.Some? {
      BetweenMembers(lane.accepted, start, flushed.value);
    }
    SortedOnce(kept);
    forall q ensures q in lane.sink.written <==> q in kept {
      assert q in multiset(lane.sink.written) <==> q in multiset(kept);
    }
  }

  lemma SameCts(x: seq<Packet>, y: seq<Packet>, c: nat)
    requires CtsOf(x) == CtsOf(y) && HasCts(x, c)
    ensures HasCts(y, c)
  {
    var q :| q in x && q.cts == c;
    var i :| 0 <= i < |x| && x[i] == q;
    assert CtsOf(x)[i] == CtsOf(y)[i] && y[i] in y;
  }

  lemma PairedSinks(s: Session)
    requires s.range.Some? && Sorted(s.a.accepted) && Sorted(s.b.accepted)
    requires Recorded(s.a, s.range.value.start, s.flushed) && Recorded(s.b, s.range.value.start, s.flushed)
    requires Paired(s.a, s.b, s.range.value.start, s.flushed)
    ensures forall c: nat :: HasCts(s.a.sink.written, c) <==> HasCts(s.b.sink.written, c)
    ensures s.flushed.Some? ==>
              HasCts(s.a.sink.written, s.range.value.start) && HasCts(s.a.sink.written, s.flushed.value)
  {
    hide From, UpTo, Between;
    var start := s.range.value.start;
    RecordedExactly(s.a, start, s.flushed);
    RecordedExactly(s.b, start, s.flushed);
    var x, y := Kept(s.a, start, s.flushed), Kept(s.b, start, s.flushed);
    forall q ensures (q in s.a.sink.written <==> q in x) && (q in s.b.sink.written <==> q in y) {
      assert q in multiset(s.a.sink.written) <==> q in multiset(x);
      assert q in multiset(s.b.sink.written) <==> q in multiset(y);
    }
    forall c: nat ensures HasCts(s.a.sink.written, c) <==> HasCts(s.b.sink.written, c) {
      if HasCts(x, c) { SameCts(x, y, c); }
      if HasCts(y, c) { SameCts(y, x, c); }
    }
  }

  /** The transaction: in every run that has not failed, both sinks hold the same CTS values, which are all the
      values either stream accepted from the common start through the last commit; and a stopped session
      finalized both sinks at that commit. */
  lemma Transaction(config: Config, budgetA: nat, budgetB: nat, events: seq<Event>)
    ensures var s := Reached(config, budgetA, budgetB, events);
            && (s.state in {Idle, Starting} ==> s.a.sink.Untouched() && s.b.sink.Untouched())
            && (s.state in {Running, Draining, Stopped} ==>
                  && s.range.Some?
                  && s.a.sink.openedAt == s.b.sink.openedAt == Some(s.range.value.start)
                  && s.a.sink.committed == s.b.sink.committed == s.flushed
                  && WroteExactly(s.a, s.range.value.start, s.flushed)
                  && WroteExactly(s.b, s.range.value.start, s.flushed)
                  && (forall c: nat :: HasCts(s.a.sink.written, c) <==> HasCts(s.b.sink.written, c)))
            && (s.state == Stopped ==>
                  && s.a.sink.ended == s.b.sink.ended == s.flushed == Some(s.range.value.end)
                  && HasCts(s.a.sink.written, s.range.value.start) && HasCts(s.a.sink.written, s.range.value.end))
  {
    hide From, UpTo, Between, Run, HasCts;
    var s := Reached(config, budgetA, budgetB, events);
    InitialInv(config, budgetA, budgetB);
    RunKeepsInv(Initial(config, budgetA, budgetB), config, events);
    if s.state in {Running, Draining, Stopped} {
      RecordedExactly(s.a, s.range.value.start, s.flushed);
      RecordedExactly(s.b, s.range.value.start, s.flushed);
      PairedSinks(s);
    }
  }

  /** `PollStart` never starts, fails or times out a session: the election was already tried at the last
      packet, and "still waiting" counts as success before the deadline is looked at. */
  lemma PollDoesNothing(s: Session, config: Config, currentCts: nat)
    requires Inv(s, config)
    ensures Polled(s, config, currentCts) == s
  {
    if s.state == Starting {
      var c := CommonStart(s.a.accepted, s.b.accepted, s.requestedStart);
      assert c.None?;
    }
  }

  lemma {:induction false} NeverTimesOut(config: Config, budgetA: nat, budgetB: nat, events: seq<Event>)
    ensures Reached(config, budgetA, budgetB, events).failure != StartTimeout
  {
    hide StableFlushed, FlushedThrough, Established;
    if |events| > 0 {
      var before := Reached(config, budgetA, budgetB, events[..|events| - 1]);
      NeverTimesOut(config, budgetA, budgetB, events[..|events| - 1]);
      InitialInv(config, budgetA, budgetB);
      RunKeepsInv(Initial(config, budgetA, budgetB), config, events[..|events| - 1]);
      StepFailure(before, config, events[|events| - 1]);
    }
  }

  lemma SubmitCauses(s: Session, config: Config, stream: Stream, p: Packet)
    requires Inv(s, config)
    ensures var t := Submitted(s, config, stream, p);
            && (t.failure != s.failure ==> t.state == Failed && t.failure != StartTimeout)
            && (t.state == Failed && t.failure == LatePacket <==> Late(s, p))
            && (t.failure == RangeMismatch ==> s.failure == RangeMismatch)
  {
    hide Inv, Submitted, StartFailure, FlushStarves, CommonStart;
    SubmitKeepsInv(s, config, stream, p);
    CausesOf(s, config, stream, p);
    OnlyFailuresChange(s, config, stream, p);
  }

  lemma CausesOf(s: Session, config: Config, stream: Stream, p: Packet)
    ensures SubmitFailure(s, config, stream, p) !in {Some(StartTimeout), Some(RangeMismatch)}
    ensures SubmitFailure(s, config, stream, p) == Some(LatePacket) <==> Late(s, p)
  {
    hide FlushStarves, CommonStart, TooMuchTail;
  }

  lemma OnlyFailuresChange(s: Session, config: Config, stream: Stream, p: Packet)
    ensures var t := Submitted(s, config, stream, p); t.state != Failed ==> t.failure == s.failure
  {
    hide StableFlushed, Established, Insert, SizeOf;
  }

  lemma DrainCauses(s: Session, config: Config)
    requires Inv(s, config)
    ensures var t := Drained(s);
            && (t.failure != s.failure ==> t.state == Failed && t.failure !in {StartTimeout, LatePacket})
            && (t.failure == RangeMismatch && s.failure != RangeMismatch ==> s.state == Draining && Mismatches(s))
  {
    hide FlushedThrough, Selected, Mismatches, Finished, LiveLane, Paired, BehindWatermark;
    if s.state == Draining {
      DrainOutcome(s, config);
    }
  }

  /** What a single call can add to the failure field. */
  lemma StepFailure(s: Session, config: Config, event: Event)
    requires Inv(s, config)
    ensures var t := After(s, config, event);
            && (t.failure != s.failure ==> t.state == Failed && t.failure != StartTimeout)
            && (t.failure == RangeMismatch && s.failure != RangeMismatch ==>
                  event.CompleteDrain? && s.state == Draining && Mismatches(s))
            && (t.failure == LatePacket && s.failure != LatePacket ==>
                  event.Submit? && s.flushed.Some? && s.state in {Running, Draining} &&
                  event.packet.cts <= s.flushed.value)
  {
    hide Inv, Submitted, Drained, Polled, Mismatches;
    match event
    case Start(_) =>
    case Submit(stream, packet) => SubmitCauses(s, config, stream, packet);
    case Poll(currentCts) => PollDoesNothing(s, config, currentCts);
    case RequestStop(_) =>
    case CompleteDrain => DrainCauses(s, config);
    case Abort =>
  }

  /** With a configured cadence, no run ends in `RangeMismatch`. */
  lemma {:induction false} NoMismatchWithCadence(config: Config, budgetA: nat, budgetB: nat, events: seq<Event>)
    requires config.expectedStep != 0
    ensures Reached(config, budgetA, budgetB, events).failure != RangeMismatch
  {
    hide After;
    if |events| > 0 {
      var before := Reached(config, budgetA, budgetB, events[..|events| - 1]);
      NoMismatchWithCadence(config, budgetA, budgetB, events[..|events| - 1]);
      InitialInv(config, budgetA, budgetB);
      RunKeepsInv(Initial(config, budgetA, budgetB), config, events[..|events| - 1]);
      StepFailure(before, config, events[|events| - 1]);
    }
  }

  // ---- late packets

  /** The greatest CTS a stream has offered so far. */
  ghost function Offered(events: seq<Event>, stream: Stream): nat {
    if |events| == 0 then 0
    else
      var rest, last := Offered(events[..|events| - 1], stream), events[|events| - 1];
      if last.Submit? && last.stream == stream && last.packet.cts > rest then last.packet.cts else rest
  }

  /** Every packet arrives above the smaller of the two offered maxima less the safety window. */
  ghost predicate InWindow(events: seq<Event>, safety: nat) {
    |events| > 0 ==>
      var before, last := events[..|events| - 1], events[|events| - 1];
      && InWindow(before, safety)
      && (last.Submit? ==>
            last.packet.cts + safety > Offered(before, A) || last.packet.cts + safety > Offered(before, B))
  }

  /** The only packet a call can add to the history is the one it submits. */
  lemma HistoryGrows(s: Session, config: Config, event: Event)
    ensures var t := After(s, config, event);
            && (t.a.accepted == s.a.accepted ||
                (event.Submit? && event.stream == A && t.a.accepted == Insert(s.a.accepted, event.packet)))
            && (t.b.accepted == s.b.accepted ||
                (event.Submit? && event.stream == B && t.b.accepted == Insert(s.b.accepted, event.packet)))
  {
    hide StableFlushed, FlushedThrough, Established, Insert;
  }

  lemma {:induction false} AcceptedWasOffered(config: Config, budgetA: nat, budgetB: nat, events: seq<Event>)
    ensures var s := Reached(config, budgetA, budgetB, events);
            && (forall q :: q in s.a.accepted ==> q.cts <= Offered(events, A))
            && (forall q :: q in s.b.accepted ==> q.cts <= Offered(events, B))
  {
    hide After, Insert;
    if |events| > 0 {
      var init, last := events[..|events| - 1], events[|events| - 1];
      var before := Reached(config, budgetA, budgetB, init);
      AcceptedWasOffered(config, budgetA, budgetB, init);
      HistoryGrows(before, config, last);
      if last.Submit? {
        InsertMembers(before.a.accepted, last.packet);
        InsertMembers(before.b.accepted, last.packet);
      }
    }
  }

  /** What is committed stays a full safety window behind both streams. */
  lemma WatermarkSafety(s: Session, config: Config)
    requires Inv(s, config) && s.state in {Running, Draining} && s.flushed.Some?
    ensures exists q, r :: q in s.a.accepted && r in s.b.accepted
              && s.flushed.value + config.reorderSafety <= q.cts
              && s.flushed.value + config.reorderSafety <= r.cts
  {
    var x, y := s.a.accepted, s.b.accepted;
    assert |x| > 0 && |y| > 0;
    assert x[|x| - 1] in x && y[|y| - 1] in y;
  }

  /** `LatePacket` cannot happen while the reordering stays within the safety window. */
  lemma {:induction false} NoLatePacketInWindow(config: Config, budgetA: nat, budgetB: nat, events: seq<Event>)
    requires InWindow(events, config.reorderSafety)
    ensures Reached(config, budgetA, budgetB, events).failure != LatePacket
  {
    hide After, Inv;
    if |events| > 0 {
      var init := events[..|events| - 1];
      var before := Reached(config, budgetA, budgetB, init);
      NoLatePacketInWindow(config, budgetA, budgetB, init);
      InitialInv(config, budgetA, budgetB);
      RunKeepsInv(Initial(config, budgetA, budgetB), config, init);
      StepFailure(before, config, events[|events| - 1]);
      AcceptedWasOffered(config, budgetA, budgetB, init);
      if before.state in {Running, Draining} && before.flushed.Some? {
        WatermarkSafety(before, config);
      }
    }
  }
}
