/** What the calls of a recording session do to its state, told from outside: transitions, requests, the start, the
    memory held, the fate of the sinks, the inferred cadence, and which of the offered packets are recorded. */
module RecordingStates {
  import opened Packets
  import opened PacketBuffer
  import opened CommonRange
  import opened RecordingModel
  import opened RecordingInvariant
  import opened RecordingTheorems
  import opened RecordingOrder

  // ---- the inferred cadence

  /** `d` is the distance from the first packet at or above the start to the next one. */
  ghost predicate Leads(x: seq<Packet>, start: nat, d: nat) {
    exists p, q :: p in x && q in x && start <= p.cts && p.cts < q.cts && d == q.cts - p.cts &&
                   forall r :: r in x && start <= r.cts && r != p ==> q.cts <= r.cts
  }

  lemma FirstStepLeads(x: seq<Packet>, start: nat, d: nat)
    requires Sorted(x)
    ensures Leads(x, start, d) <==> d != 0 && FirstStep(x, start) == d
  {
    hide From;
    var f := From(x, start);
    FromMembers(x, start);
    if |f| >= 2 {
      assert f[0] in f && f[1] in f;
      forall r | r in x && start <= r.cts && r != f[0] ensures f[1].cts <= r.cts {
        assert r in f;
      }
      FirstTwo(x, start, d);
    }
    forall p, q | p in x && q in x && start <= p.cts < q.cts ensures |f| >= 2 {
      assert p in f && q in f;
    }
  }

  lemma Ahead(f: seq<Packet>)
    requires Sorted(f) && |f| >= 2
    ensures f[0] in f && f[1] in f && f[0].cts < f[1].cts
    ensures forall r :: r in f ==> r == f[0] || f[1].cts <= r.cts
  {
  }

  lemma FirstTwo(x: seq<Packet>, start: nat, d: nat)
    requires Sorted(From(x, start)) && |From(x, start)| >= 2
    requires forall q :: q in From(x, start) <==> q in x && q.cts >= start
    ensures Leads(x, start, d) ==> d == From(x, start)[1].cts - From(x, start)[0].cts
  {
    hide From, Sorted;
    var f := From(x, start);
    Ahead(f);
    if Leads(x, start, d) {
      var p, q :| p in x && q in x && start <= p.cts && p.cts < q.cts && d == q.cts - p.cts &&
                  forall r :: r in x && start <= r.cts && r != p ==> q.cts <= r.cts;
      assert p in f && q in f;
    }
  }

  /** The cadence follows from the stores alone: a step is inferred if and only if in both of them the first two packets
      from the start lie apart, by distances that differ by at most one; then it is the smaller distance, and both
      distances are on its cadence. */
  lemma InferenceExactly(s: Session, d: nat)
    requires s.range.Some? && s.step == 0 && Sorted(s.a.store.packets) && Sorted(s.b.store.packets) && d != 0
    ensures var start := s.range.value.start;
            InferredStep(s) == d <==>
              exists x, y :: Leads(s.a.store.packets, start, x) && Leads(s.b.store.packets, start, y)
                             && OnCadence(0, x, d) && OnCadence(0, y, d) && d <= x && d <= y && (d == x || d == y)
  {
    hide From, FirstStep, Leads, Sorted;
    var a, b, start := s.a.store.packets, s.b.store.packets, s.range.value.start;
    var x, y := FirstStep(a, start), FirstStep(b, start);
    FirstStepLeads(a, start, x);
    FirstStepLeads(b, start, y);
    if x', y' :| Leads(a, start, x') && Leads(b, start, y') && OnCadence(0, x', d) && OnCadence(0, y', d)
                 && d <= x' && d <= y' && (d == x' || d == y') {
      FirstStepLeads(a, start, x');
      FirstStepLeads(b, start, y');
    }
  }

  // ---- transitions

  /** The state after a call that does not fail. */
  ghost predicate MovesTo(s: Session, event: Event, t: Session) {
    && (s.state == Idle ==> t.state == if event.Start? then Starting else Idle)
    && (s.state == Starting ==>
          if event.Submit? && !NoCommonStart(t.a.accepted, t.b.accepted, s.requestedStart) then t.state == Running
          else t.state == Starting)
    && (s.state == Running ==> t.state == if event.RequestStop? then Draining else Running)
    && (s.state == Draining ==> t.state == if event.CompleteDrain? then Stopped else Draining)
    && (s.state == Stopped ==> t.state == Stopped)
  }

  /** The calls that no state but the named one allows. */
  ghost predicate OutOfPlace(s: Session, event: Event) {
    match event
    case Start(_) => s.state != Idle
    case Submit(_, _) => s.state !in {Starting, Running, Draining}
    case RequestStop(_) => s.state == Idle
    case Abort => s.state != Stopped
    case _ => false
  }

  /** What a call leaves as it was, and the two requests. */
  ghost predicate Keeps(s: Session, event: Event, t: Session) {
    && t.requestedStart == (if event.Start? && s.state == Idle then event.requestedStart else s.requestedStart)
    && t.requestedStop ==
       (if event.RequestStop? && s.state in {Starting, Running} then event.requestedStop else s.requestedStop)
    && (s.range.Some? ==> t.range.Some? && t.range.value.start == s.range.value.start)
    && (s.step != 0 ==> t.step == s.step)
    && (s.state == Failed ==> t.state == Failed)
    && (s.state in {Stopped, Failed} ==>
          && t.a.sink == s.a.sink.(aborted := t.a.sink.aborted)
          && t.b.sink == s.b.sink.(aborted := t.b.sink.aborted))
    && (event.Abort? && s.state !in {Stopped, Failed} ==>
          t.failure == Aborted && t.a.store.packets == [] && t.b.store.packets == [])
  }

  /** The packets a call that does not fail adds to the history of a stream. */
  ghost predicate Takes(s: Session, event: Event, t: Session, stream: Stream) {
    forall q :: q in LaneOf(t, stream).accepted <==>
                  || q in LaneOf(s, stream).accepted
                  || (event == Submit(stream, q) && (s.range.None? || s.range.value.start <= q.cts))
  }

  // ---- what holds between any two calls

  /** A session has failed if and only if it names a reason, and then both sinks are aborted, and otherwise neither;
      its memory bound is that of its phase; the start is the least common keyframe of everything accepted. */
  ghost predicate Tidy(s: Session, config: Config) {
    && (s.state == Failed <==> s.failure != NoFailure)
    && (s.a.sink.aborted <==> s.state == Failed) && (s.b.sink.aborted <==> s.state == Failed)
    && (s.state in {Idle, Starting} ==>
          s.range.None? && s.a.store.capacity == s.b.store.capacity == config.preRollCapacity)
    && (s.state in {Running, Draining} ==> s.a.store.capacity == s.b.store.capacity == config.tailCapacity)
    && (s.state == Stopped ==> s.a.store.packets == s.b.store.packets == [])
    && (s.state in {Running, Draining, Stopped} ==>
          s.range.Some? && IsCommonStart(s.a.accepted, s.b.accepted, s.requestedStart, s.range.value.start))
  }

  /** A flush touches stores, sinks, the step and the last commit, and it can only fail. */
  ghost predicate Flushes(s: Session, t: Session) {
    && t.range == s.range && SameHistory(s, t) && t.requestedStop == s.requestedStop
    && (t.state == s.state || t.state == Failed) && (t.state == Failed && s.state != Failed ==> t.failure != NoFailure)
    && t.a.store.capacity == s.a.store.capacity && t.b.store.capacity == s.b.store.capacity
    && (s.step != 0 ==> t.step == s.step)
    && (s.state != Failed ==>
          && t.a.sink.aborted == (s.a.sink.aborted || t.state == Failed)
          && t.b.sink.aborted == (s.b.sink.aborted || t.state == Failed))
  }

  lemma FlushChanges(s: Session, cts: nat)
    ensures Flushes(s, FlushedThrough(s, cts))
  {
    hide From, UpTo, SizeOf, Selected, Contained, Frontier, FirstStep;
  }

  lemma StableFlushChanges(s: Session, safety: nat)
    requires s.range.Some?
    ensures Flushes(s, StableFlushed(s, safety))
  {
    hide From, UpTo, SizeOf, Selected, FlushedThrough, Watermark, FirstStep;
    var t := Inferred(s);
    var upper := Watermark(t, safety);
    if upper.Some? && Selected(t, upper.value).Some? {
      FlushChanges(t, Selected(t, upper.value).value);
    }
  }

  /** A running flush leaves the cadence that its stores imply before it. */
  lemma FlushInfers(s: Session, safety: nat)
    requires s.range.Some? && StableFlushed(s, safety).state != Failed
    ensures StableFlushed(s, safety).step == InferredStep(s)
  {
    hide From, UpTo, SizeOf, Selected, FirstStep, Contained, Frontier;
    InferredTwice(s);
  }

  // ---- one call

  /** The call meets every promise about its kind. */
  ghost predicate Abides(s: Session, config: Config, event: Event, t: Session) {
    && Tidy(t, config) && Keeps(s, event, t)
    && (OutOfPlace(s, event) ==> t.state == Failed)
    && (t.state != Failed ==> MovesTo(s, event, t) && Takes(s, event, t, A) && Takes(s, event, t, B))
  }

  lemma RequestAbides(s: Session, config: Config, event: Event)
    requires Inv(s, config) && Tidy(s, config) && (event.Start? || event.RequestStop? || event.Abort? || event.Poll?)
    ensures Abides(s, config, event, After(s, config, event))
    ensures After(s, config, event).state == Failed <==> s.state == Failed || OutOfPlace(s, event)
  {
    hide IsCommonStart, Live, Settled, BehindWatermark, Finished, Polled, NoCommonStart;
    if event.Poll? {
      PollDoesNothing(s, config, event.currentCts);
    }
  }

  /** Accepting a packet above the start leaves the start the least common keyframe. */
  lemma AcceptKeepsStart(lane: Lane, other: Lane, requested: nat, start: nat, p: Packet)
    requires start < p.cts
    requires IsCommonStart(lane.accepted, other.accepted, requested, start) ||
             IsCommonStart(other.accepted, lane.accepted, requested, start)
    ensures IsCommonStart(Accepting(lane, p).accepted, other.accepted, requested, start)
    ensures IsCommonStart(other.accepted, Accepting(lane, p).accepted, requested, start)
  {
    hide Insert, SizeOf;
    InsertMembers(lane.accepted, p);
    forall d: nat | d <= start
      ensures KeyframeAt(Accepting(lane, p).accepted, d) <==> KeyframeAt(lane.accepted, d)
    {
      assert forall q :: q in Accepting(lane, p).accepted && q.cts == d <==> q in lane.accepted && q.cts == d;
    }
  }

  lemma NewIsAbove(lane: Lane, start: nat, flushed: Option<nat>, p: Packet)
    requires LiveLane(lane, start, flushed) && (flushed.Some? ==> start <= flushed.value)
    requires NextCts(start, flushed) <= p.cts && lane.store.PushOutcome(p) == Retained
    ensures start < p.cts
  {
    NewPacket(lane, start, flushed, p);
    assert HasCts(lane.accepted, start);
  }

  lemma CommittedFromStart(s: Session)
    requires Live(s)
    ensures s.flushed.Some? ==> s.range.value.start <= s.flushed.value
  {
  }

  /** The session with the packet stored, before anything follows from it. */
  lemma AcceptAbides(s: Session, config: Config, stream: Stream, p: Packet)
    requires Inv(s, config) && Tidy(s, config) && Arrives(s, p)
    requires LaneOf(s, stream).store.PushOutcome(p) == Retained
    ensures var t := WithLane(s, stream, Accepting(LaneOf(s, stream), p));
            && Tidy(t, config) && Keeps(s, Submit(stream, p), t)
            && Takes(s, Submit(stream, p), t, A) && Takes(s, Submit(stream, p), t, B)
  {
    hide From, UpTo, Insert, SizeOf, IsCommonStart, Settled, Paired, NoCommonStart;
    var lane := LaneOf(s, stream);
    InsertMembers(lane.accepted, p);
    if s.state != Starting {
      var start := s.range.value.start;
      CommittedFromStart(s);
      NewIsAbove(lane, start, s.flushed, p);
      AcceptKeepsStart(lane, if stream == A then s.b else s.a, s.requestedStart, start, p);
    }
  }

  /** What an election leaves alone, whatever comes of it. */
  ghost predicate Elects(s: Session, t: Session) {
    && SameHistory(s, t) && t.requestedStop == s.requestedStop && (s.step != 0 ==> t.step == s.step)
    && (t.state == Failed ==> t.failure != NoFailure && t.a.sink.aborted && t.b.sink.aborted)
  }

  lemma FailedElection(s: Session, c: nat, config: Config)
    requires s.state == Starting
    requires CommonStart(s.a.store.packets, s.b.store.packets, s.requestedStart) == Some(c)
    requires TooMuchTail(s, c, config.tailCapacity) || s.a.sink.budget == 0 || s.b.sink.budget == 0
    ensures var t := Established(s, config); t.state == Failed && Elects(s, t)
  {
    hide From, UpTo, SizeOf, StableFlushed, CommonStart, FirstStep;
  }

  lemma BegunAbides(s: Session, c: nat, config: Config)
    requires s.state == Starting && Waiting(s) && s.failure == NoFailure
    requires CommonStart(s.a.accepted, s.b.accepted, s.requestedStart) == Some(c)
    requires s.a.sink.budget > 0 && s.b.sink.budget > 0
    ensures var t := StableFlushed(Inferred(Begun(s, c, config.tailCapacity)), config.reorderSafety);
            !TooMuchTail(s, c, config.tailCapacity) ==> Tidy(t, config) && Elects(s, t) && t.state in {Running, Failed}
  {
    hide From, UpTo, SizeOf, StableFlushed, FirstStep, LeastCommonKey, IsCommonStart, NoCommonStart;
    var u := Begun(s, c, config.tailCapacity);
    StableFlushChanges(Inferred(u), config.reorderSafety);
  }

  lemma EstablishAbides(s: Session, config: Config)
    requires s.state == Starting && Waiting(s) && Tidy(s, config)
    ensures var t := Established(s, config);
            && Tidy(t, config) && Elects(s, t)
            && (t.state != Failed ==>
                  t.state == if NoCommonStart(t.a.accepted, t.b.accepted, s.requestedStart) then Starting else Running)
  {
    hide From, UpTo, SizeOf, StableFlushed, Established, IsCommonStart, NoCommonStart, InferredStep;
    var c := CommonStart(s.a.accepted, s.b.accepted, s.requestedStart);
    if c.None? {
      StillWaiting(s, config);
    } else {
      EstablishFails(s, c.value, config);
      if TooMuchTail(s, c.value, config.tailCapacity) || s.a.sink.budget == 0 || s.b.sink.budget == 0 {
        FailedElection(s, c.value, config);
      } else {
        BegunAbides(s, c.value, config);
        SomeCommonStart(s, c.value);
      }
    }
  }

  lemma SomeCommonStart(s: Session, c: nat)
    requires IsCommonStart(s.a.accepted, s.b.accepted, s.requestedStart, c)
    ensures !NoCommonStart(s.a.accepted, s.b.accepted, s.requestedStart)
  {
  }

  lemma RetainedAbides(s: Session, config: Config, stream: Stream, p: Packet)
    requires Inv(s, config) && Tidy(s, config) && Arrives(s, p)
    requires LaneOf(s, stream).store.PushOutcome(p) == Retained
    ensures Abides(s, config, Submit(stream, p), Submitted(s, config, stream, p))
  {
    hide From, UpTo, Insert, SizeOf, Established, StableFlushed, IsCommonStart, Settled, LiveLane, Paired,
         NoCommonStart, BehindWatermark, Watermark, Finished;
    AcceptAbides(s, config, stream, p);
    var t := WithLane(s, stream, Accepting(LaneOf(s, stream), p));
    if s.state == Starting {
      AcceptKeepsLane(LaneOf(s, stream), p);
      EstablishAbides(t, config);
    } else if s.state == Running {
      StableFlushChanges(t, config.reorderSafety);
    }
  }

  lemma RefusedAbides(s: Session, config: Config, stream: Stream, p: Packet)
    requires Inv(s, config) && Tidy(s, config)
    requires !(Arrives(s, p) && LaneOf(s, stream).store.PushOutcome(p) == Retained)
    ensures Abides(s, config, Submit(stream, p), Submitted(s, config, stream, p))
  {
    hide Inv, PacketBuffer.Buffer.PushOutcome, Accepting, Established, StableFlushed, IsCommonStart, NoCommonStart;
    var t := Submitted(s, config, stream, p);
    assert t == s || (t.state == Failed && t == s.Failing(t.failure) && t.failure != NoFailure);
    StateKept(s, config);
  }

  lemma StateKept(s: Session, config: Config)
    requires Inv(s, config)
    ensures s.state == Starting ==> NoCommonStart(s.a.accepted, s.b.accepted, s.requestedStart)
  {
    hide Live, Waiting, Settled, Finished, NoCommonStart;
  }

  lemma SubmitAbides(s: Session, config: Config, stream: Stream, p: Packet)
    requires Inv(s, config) && Tidy(s, config)
    ensures Abides(s, config, Submit(stream, p), Submitted(s, config, stream, p))
  {
    hide *;
    if Arrives(s, p) && LaneOf(s, stream).store.PushOutcome(p) == Retained {
      RetainedAbides(s, config, stream, p);
    } else {
      RefusedAbides(s, config, stream, p);
    }
  }

  lemma FinalizeChanges(s: Session, config: Config, end: nat)
    requires s.range.Some? && Tidy(s, config) && s.state == Draining
    ensures var t := Finalized(s, end);
            && Tidy(t, config) && SameHistory(s, t) && t.requestedStop == s.requestedStop && t.step == s.step
            && t.state in {Stopped, Failed} && t.range.Some? && t.range.value.start == s.range.value.start
  {
    hide IsCommonStart;
  }

  lemma DrainAbides(s: Session, config: Config)
    requires Tidy(s, config)
    ensures Abides(s, config, CompleteDrain, Drained(s))
  {
    hide FlushedThrough, IsCommonStart, NoCommonStart, Selected, Finalized;
    if s.state == Draining {
      var flushed := if s.flushed.Some? then s.flushed.value else 0;
      var end := match Selected(s, s.requestedStop) case Some(c) => c case None => flushed;
      FlushChanges(s, end);
      var t := FlushedThrough(s, end);
      if t.Succeeds() {
        FinalizeChanges(t, config, end);
      }
    }
  }

  lemma FinalizedAt(s: Session, end: nat)
    requires s.range.Some? && Finalized(s, end).state == Stopped
    ensures var t := Finalized(s, end);
            t.range.Some? && t.range.value.end == end && t.flushed == s.flushed && t.requestedStop == s.requestedStop
  {
  }

  /** A drain that succeeds ends at the common run it finds below the stop, or where the last commit was. */
  lemma DrainEnds(s: Session, config: Config)
    requires Inv(s, config) && s.state == Draining && Drained(s).state == Stopped
    ensures var t, c := Drained(s), Selected(s, s.requestedStop);
            && t.range.Some? && t.flushed == Some(t.range.value.end) && t.requestedStop == s.requestedStop
            && t.flushed == (if c.Some? then c else s.flushed)
            && (t.flushed == s.flushed ||
                NextCts(s.range.value.start, s.flushed) <= t.range.value.end <= s.requestedStop)
  {
    hide Drained, Finalized, FlushedThrough, Selected, Settled, LiveLane, Paired, Mismatches, Starved;
    if Selected(s, s.requestedStop).Some? {
      var cts := Selected(s, s.requestedStop).value;
      SelectedIsNew(s, s.requestedStop);
      DrainedAsInferred(s, cts);
      InferredKeepsLive(s);
      InferredTwice(s);
      FlushKeepsLive(Inferred(s), cts);
      FinalizedAt(FlushedThrough(s, cts), cts);
    } else {
      DrainOutcome(s, config);
      NoCandidate(s);
      LastCommitStands(s);
      FinalizedAt(s, s.flushed.value);
    }
  }

  /** Every call from every state a run can reach keeps the session tidy, moves it as told, and takes exactly the
      packets it should. */
  lemma StepAbides(s: Session, config: Config, event: Event)
    requires Inv(s, config) && Tidy(s, config)
    ensures Abides(s, config, event, After(s, config, event))
  {
    hide Inv, Tidy, Abides, Submitted, Drained, Polled;
    match event
    case Submit(stream, p) => SubmitAbides(s, config, stream, p);
    case CompleteDrain => DrainAbides(s, config);
    case _ => RequestAbides(s, config, event);
  }

  // ---- whole runs

  lemma {:induction false} RunIsTidy(config: Config, budgetA: nat, budgetB: nat, events: seq<Event>)
    ensures Tidy(Reached(config, budgetA, budgetB, events), config)
    ensures Inv(Reached(config, budgetA, budgetB, events), config)
  {
    hide After, Inv;
    InitialInv(config, budgetA, budgetB);
    RunKeepsInv(Initial(config, budgetA, budgetB), config, events);
    if |events| > 0 {
      hide Tidy;
      RunIsTidy(config, budgetA, budgetB, events[..|events| - 1]);
      StepAbides(Reached(config, budgetA, budgetB, events[..|events| - 1]), config, events[|events| - 1]);
    }
  }

  /** Every call of every run, told from outside. */
  lemma CallAbides(config: Config, budgetA: nat, budgetB: nat, events: seq<Event>, k: nat)
    requires k < |events|
    ensures Abides(Reached(config, budgetA, budgetB, events[..k]), config, events[k],
                   Reached(config, budgetA, budgetB, events[..k + 1]))
  {
    hide After, Inv, Abides, Tidy;
    RunIsTidy(config, budgetA, budgetB, events[..k]);
    StepAbides(Reached(config, budgetA, budgetB, events[..k]), config, events[k]);
    assert events[..k + 1][..k] == events[..k];
  }

  /** In every run the stores stay within the bound of the phase, and a stopped session holds nothing. */
  lemma MemoryBound(config: Config, budgetA: nat, budgetB: nat, events: seq<Event>)
    ensures var s := Reached(config, budgetA, budgetB, events);
            && (s.state in {Idle, Starting} ==>
                  && SizeOf(s.a.store.packets) <= config.preRollCapacity
                  && SizeOf(s.b.store.packets) <= config.preRollCapacity)
            && (s.state in {Running, Draining} ==>
                  && SizeOf(s.a.store.packets) <= config.tailCapacity
                  && SizeOf(s.b.store.packets) <= config.tailCapacity)
            && (s.state == Stopped ==> s.a.store.packets == s.b.store.packets == [])
  {
    hide From, SizeOf, Run, Kept, Paired, Settled, IsCommonStart, NoCommonStart;
    RunIsTidy(config, budgetA, budgetB, events);
  }

  /** The run up to the call `k` stands where that call is made. */
  ghost function At(config: Config, budgetA: nat, budgetB: nat, events: seq<Event>, k: nat): Session
    requires k <= |events|
  {
    Reached(config, budgetA, budgetB, events[..k])
  }

  /** The call `k` offers `q` on the stream, at or above the start if there is one already. */
  ghost predicate OfferedAt(config: Config, budgetA: nat, budgetB: nat, events: seq<Event>, stream: Stream, q: Packet,
                            k: nat)
    requires k < |events|
  {
    var s := At(config, budgetA, budgetB, events, k);
    events[k] == Submit(stream, q) && (s.range.None? || s.range.value.start <= q.cts)
  }

  lemma LastCallTakes(config: Config, budgetA: nat, budgetB: nat, events: seq<Event>, stream: Stream, q: Packet)
    requires |events| > 0 && Reached(config, budgetA, budgetB, events).state != Failed
    ensures var n := |events| - 1;
            var before := At(config, budgetA, budgetB, events, n);
            && before.state != Failed
            && (q in LaneOf(Reached(config, budgetA, budgetB, events), stream).accepted <==>
                  || q in LaneOf(before, stream).accepted
                  || OfferedAt(config, budgetA, budgetB, events, stream, q, n))
  {
    hide Tidy, Run, MovesTo, OutOfPlace;
    CallAbides(config, budgetA, budgetB, events, |events| - 1);
    assert events[..|events| - 1 + 1] == events;
  }

  /** Some call offers `q` on the stream, not below the start. */
  ghost predicate Offers(config: Config, budgetA: nat, budgetB: nat, events: seq<Event>, stream: Stream, q: Packet) {
    exists k :: 0 <= k < |events| && OfferedAt(config, budgetA, budgetB, events, stream, q, k)
  }

  /** What a call offered depends on the calls before it only. */
  lemma OfferedEarlier(config: Config, budgetA: nat, budgetB: nat, events: seq<Event>, stream: Stream, q: Packet,
                       k: nat)
    requires k < |events| - 1
    ensures OfferedAt(config, budgetA, budgetB, events, stream, q, k)
            <==> OfferedAt(config, budgetA, budgetB, events[..|events| - 1], stream, q, k)
  {
    hide Reached;
    assert events[..|events| - 1][..k] == events[..k];
  }

  lemma OffersSplit(config: Config, budgetA: nat, budgetB: nat, events: seq<Event>, stream: Stream, q: Packet)
    requires |events| > 0
    ensures var n := |events| - 1;
            Offers(config, budgetA, budgetB, events, stream, q) <==>
              || Offers(config, budgetA, budgetB, events[..n], stream, q)
              || OfferedAt(config, budgetA, budgetB, events, stream, q, n)
  {
    hide OfferedAt;
    var n := |events| - 1;
    forall k | 0 <= k < n
      ensures OfferedAt(config, budgetA, budgetB, events, stream, q, k)
              <==> OfferedAt(config, budgetA, budgetB, events[..n], stream, q, k)
    {
      OfferedEarlier(config, budgetA, budgetB, events, stream, q, k);
    }
  }

  /** In every run that has not failed, a packet was accepted if and only if some call offered it, not below the
      start. */
  lemma {:induction false} AcceptedExactly(config: Config, budgetA: nat, budgetB: nat, events: seq<Event>,
                                           stream: Stream, q: Packet)
    requires Reached(config, budgetA, budgetB, events).state != Failed
    ensures q in LaneOf(Reached(config, budgetA, budgetB, events), stream).accepted <==>
              Offers(config, budgetA, budgetB, events, stream, q)
  {
    if |events| > 0 {
      hide Run, Reached, LaneOf, OfferedAt, Offers;
      LastCallTakes(config, budgetA, budgetB, events, stream, q);
      AcceptedExactly(config, budgetA, budgetB, events[..|events| - 1], stream, q);
      OffersSplit(config, budgetA, budgetB, events, stream, q);
    }
  }

  /** In every run a start, once elected, never moves. */
  lemma {:induction false} StartStays(config: Config, budgetA: nat, budgetB: nat, events: seq<Event>, k: nat)
    requires k <= |events| && At(config, budgetA, budgetB, events, k).range.Some?
    ensures var s := Reached(config, budgetA, budgetB, events);
            s.range.Some? && s.range.value.start == At(config, budgetA, budgetB, events, k).range.value.start
  {
    hide Tidy, Run, MovesTo, OutOfPlace, Takes;
    if k == |events| {
      assert events[..k] == events;
    } else {
      var n := |events| - 1;
      assert events[..n][..k] == events[..k] && events[..n + 1] == events;
      StartStays(config, budgetA, budgetB, events[..n], k);
      CallAbides(config, budgetA, budgetB, events, n);
    }
  }

  lemma SubmittedIsOffered(config: Config, budgetA: nat, budgetB: nat, events: seq<Event>, stream: Stream, q: Packet,
                           k: nat)
    requires k < |events| && Reached(config, budgetA, budgetB, events).range.Some?
    requires Reached(config, budgetA, budgetB, events).range.value.start <= q.cts
    ensures OfferedAt(config, budgetA, budgetB, events, stream, q, k) <==> events[k] == Submit(stream, q)
  {
    hide Run;
    if At(config, budgetA, budgetB, events, k).range.Some? {
      StartStays(config, budgetA, budgetB, events, k);
    }
  }

  /** The recording in terms of the calls alone: in every run that has not failed, what was written to the file of a
      stream are exactly the packets offered for it with a CTS from the start through the last commit. */
  lemma OfferedIsWritten(config: Config, budgetA: nat, budgetB: nat, events: seq<Event>, stream: Stream, q: Packet)
    requires var s := Reached(config, budgetA, budgetB, events); s.state != Failed && s.range.Some?
    ensures var s := Reached(config, budgetA, budgetB, events);
            q in LaneOf(s, stream).sink.written <==>
              && Submit(stream, q) in events && s.flushed.Some?
              && s.range.value.start <= q.cts <= s.flushed.value
  {
    hide Run, Tidy, Reached, LaneOf, WroteExactly, OfferedAt;
    var s := Reached(config, budgetA, budgetB, events);
    WrittenIsAccepted(config, budgetA, budgetB, events, stream, q);
    AcceptedExactly(config, budgetA, budgetB, events, stream, q);
    forall k | 0 <= k < |events| && s.range.value.start <= q.cts
      ensures OfferedAt(config, budgetA, budgetB, events, stream, q, k) <==> events[k] == Submit(stream, q)
    {
      SubmittedIsOffered(config, budgetA, budgetB, events, stream, q, k);
    }
  }

  lemma WrittenIsAccepted(config: Config, budgetA: nat, budgetB: nat, events: seq<Event>, stream: Stream, q: Packet)
    requires var s := Reached(config, budgetA, budgetB, events); s.state != Failed && s.range.Some?
    ensures var s := Reached(config, budgetA, budgetB, events);
            q in LaneOf(s, stream).sink.written <==>
              && q in LaneOf(s, stream).accepted && s.flushed.Some?
              && s.range.value.start <= q.cts <= s.flushed.value
  {
    hide Run, IsCommonStart, HasCts, Inv;
    Transaction(config, budgetA, budgetB, events);
    RunIsTidy(config, budgetA, budgetB, events);
  }

  // ---- requests

  /** Where the request to start was made. */
  ghost predicate StartedAt(config: Config, budgetA: nat, budgetB: nat, events: seq<Event>, k: nat)
    requires k < |events|
  {
    events[k].Start? && At(config, budgetA, budgetB, events, k).state == Idle
  }

  /** The call `k` is a request to stop that counts. */
  ghost predicate StopsAt(config: Config, budgetA: nat, budgetB: nat, events: seq<Event>, k: nat)
    requires k < |events|
  {
    events[k].RequestStop? && At(config, budgetA, budgetB, events, k).state in {Starting, Running}
  }

  lemma StopsEarlier(config: Config, budgetA: nat, budgetB: nat, events: seq<Event>, k: nat)
    requires k < |events| - 1
    ensures StopsAt(config, budgetA, budgetB, events, k)
            <==> StopsAt(config, budgetA, budgetB, events[..|events| - 1], k)
  {
    hide Reached;
    assert events[..|events| - 1][..k] == events[..k];
  }

  /** In every run the stop CTS is that of the last request made while starting or running: once the session drains, no
      further request moves it. */
  lemma {:induction false} LastRequestCounts(config: Config, budgetA: nat, budgetB: nat, events: seq<Event>)
    ensures var stop := Reached(config, budgetA, budgetB, events).requestedStop;
            || (stop == 0 && forall k :: 0 <= k < |events| ==> !StopsAt(config, budgetA, budgetB, events, k))
            || exists k :: 0 <= k < |events| && StopsAt(config, budgetA, budgetB, events, k)
                           && stop == events[k].requestedStop
                           && forall j :: k < j < |events| ==> !StopsAt(config, budgetA, budgetB, events, j)
  {
    if |events| > 0 {
      hide Run, Reached, StopsAt;
      var n := |events| - 1;
      var init := events[..n];
      LastRequestCounts(config, budgetA, budgetB, init);
      LastCallStops(config, budgetA, budgetB, events);
      forall k | 0 <= k < n
        ensures StopsAt(config, budgetA, budgetB, events, k) <==> StopsAt(config, budgetA, budgetB, init, k)
      {
        StopsEarlier(config, budgetA, budgetB, events, k);
      }
    }
  }

  lemma LastCallStops(config: Config, budgetA: nat, budgetB: nat, events: seq<Event>)
    requires |events| > 0
    ensures var n := |events| - 1;
            Reached(config, budgetA, budgetB, events).requestedStop ==
              if StopsAt(config, budgetA, budgetB, events, n) then events[n].requestedStop
              else Reached(config, budgetA, budgetB, events[..n]).requestedStop
  {
    hide Tidy, Run, MovesTo, OutOfPlace, Takes;
    CallAbides(config, budgetA, budgetB, events, |events| - 1);
    assert events[..|events| - 1 + 1] == events;
  }

  /** In every run that drains or has stopped, the stop CTS is that of the request that ended the running phase, the
      only one that took it there; a request made before the start was elected ends nothing. */
  lemma {:induction false} DrainsOnRequest(config: Config, budgetA: nat, budgetB: nat, events: seq<Event>)
    requires Reached(config, budgetA, budgetB, events).state in {Draining, Stopped}
    ensures exists k :: 0 <= k < |events| && EndsRunning(config, budgetA, budgetB, events, k) &&
                        Reached(config, budgetA, budgetB, events).requestedStop == events[k].requestedStop
  {
    if |events| > 0 {
      hide Tidy, Run, Takes;
      var n := |events| - 1;
      CallAbides(config, budgetA, budgetB, events, n);
      assert events[..n + 1] == events;
      var before := At(config, budgetA, budgetB, events, n);
      if before.state in {Draining, Stopped} {
        DrainsOnRequest(config, budgetA, budgetB, events[..n]);
        var k :| 0 <= k < n && EndsRunning(config, budgetA, budgetB, events[..n], k) &&
                 before.requestedStop == events[..n][k].requestedStop;
        assert events[..n][..k] == events[..k];
        assert EndsRunning(config, budgetA, budgetB, events, k);
      } else {
        assert EndsRunning(config, budgetA, budgetB, events, n);
      }
    }
  }

  ghost predicate EndsRunning(config: Config, budgetA: nat, budgetB: nat, events: seq<Event>, k: nat)
    requires k < |events|
  {
    events[k].RequestStop? && At(config, budgetA, budgetB, events, k).state == Running
  }

  lemma LastCallStarts(config: Config, budgetA: nat, budgetB: nat, events: seq<Event>)
    requires |events| > 0 && Reached(config, budgetA, budgetB, events).state != Failed
    ensures var n, after := |events| - 1, Reached(config, budgetA, budgetB, events);
            var before := Reached(config, budgetA, budgetB, events[..n]);
            && before.state != Failed
            && (events[n].Start? <==> before.state == Idle && after.state != Idle)
            && (after.state == Idle ==> before.state == Idle)
            && after.requestedStart == (if events[n].Start? then events[n].requestedStart else before.requestedStart)
  {
    hide Tidy, Run, Takes;
    CallAbides(config, budgetA, budgetB, events, |events| - 1);
    assert events[..|events| - 1 + 1] == events;
  }

  /** What every call that asks to start asks for. */
  ghost function StartsOf(events: seq<Event>): seq<nat> {
    if |events| == 0 then []
    else
      var last := events[|events| - 1];
      StartsOf(events[..|events| - 1]) + (if last.Start? then [last.requestedStart] else [])
  }

  /** In every run that has not failed, a session that is no longer idle was asked to start exactly once, and the
      requested start is the one of that call. */
  lemma {:induction false} StartedOnce(config: Config, budgetA: nat, budgetB: nat, events: seq<Event>)
    requires Reached(config, budgetA, budgetB, events).state != Failed
    ensures var s := Reached(config, budgetA, budgetB, events);
            StartsOf(events) == if s.state == Idle then [] else [s.requestedStart]
  {
    if |events| > 0 {
      hide Run, Reached;
      LastCallStarts(config, budgetA, budgetB, events);
      StartedOnce(config, budgetA, budgetB, events[..|events| - 1]);
    }
  }

  /** In every run with a start that has not failed, the start is the least CTS from the requested one that both streams
      accepted as a keyframe, whatever was accepted later. */
  lemma StartIsLeast(config: Config, budgetA: nat, budgetB: nat, events: seq<Event>)
    ensures var s := Reached(config, budgetA, budgetB, events);
            && (s.state in {Running, Draining, Stopped} ==>
                  && s.range.Some? && s.requestedStart <= s.range.value.start
                  && KeyframeAt(s.a.accepted, s.range.value.start) && KeyframeAt(s.b.accepted, s.range.value.start)
                  && forall d: nat :: s.requestedStart <= d < s.range.value.start ==>
                                        !(KeyframeAt(s.a.accepted, d) && KeyframeAt(s.b.accepted, d)))
            && (s.state == Starting ==>
                  forall d: nat :: s.requestedStart <= d ==>
                                     !(KeyframeAt(s.a.accepted, d) && KeyframeAt(s.b.accepted, d)))
  {
    hide Run, KeyframeAt, Live, Settled, Finished, BehindWatermark;
    RunIsTidy(config, budgetA, budgetB, events);
  }

  /** In every run, failing names a reason and aborts both files, and nothing else does either. */
  lemma FailureAbortsBoth(config: Config, budgetA: nat, budgetB: nat, events: seq<Event>)
    ensures var s := Reached(config, budgetA, budgetB, events);
            && (s.state == Failed <==> s.failure != NoFailure)
            && (s.a.sink.aborted <==> s.state == Failed) && (s.b.sink.aborted <==> s.state == Failed)
  {
    hide Run, IsCommonStart, Inv;
    RunIsTidy(config, budgetA, budgetB, events);
  }
}
