/** How much the recording session retains, and what it does to gaps in the timeline. */
module RecordingTail {
  import opened Packets
  import opened DecodeOrder
  import opened PacketBuffer
  import opened CommonRange
  import opened PacketSinks
  import opened RecordingModel
  import opened RecordingInvariant
  import opened RecordingTheorems

  // ---- bounded tail

  /** The CTS values start, start + step, start + 2 * step, ... */
  ghost predicate Regular(x: seq<Packet>, start: nat, step: nat) {
    forall i :: 0 <= i < |x| ==> x[i].cts == start + i * step
  }

  lemma {:induction false} NextMultiple(i: nat, j: nat, step: nat)
    requires i < j
    ensures i * step + step <= j * step
    decreases j
  {
    assert j * step == (j - 1) * step + step;
    if i < j - 1 {
      NextMultiple(i, j - 1, step);
    }
  }

  lemma Distinct(i: nat, j: nat, step: nat)
    requires step > 0 && i * step == j * step
    ensures i == j
  {
    if i < j { NextMultiple(i, j, step); }
    if j < i { NextMultiple(j, i, step); }
  }

  lemma Quotient(n: nat, step: nat, safety: nat)
    requires step > 0 && n * step < safety
    ensures n <= safety / step
  {
    var q := safety / step;
    assert safety == q * step + safety % step;
    if q < n {
      NextMultiple(q, n, step);
    }
  }

  /** On a regular timeline the store is what remains of it after the committed packets. */
  lemma RegularStore(lane: Lane, start: nat, flushed: Option<nat>, step: nat) returns (n: nat)
    requires LiveLane(lane, start, flushed) && step > 0
    requires flushed.Some? ==> start <= flushed.value && HasCts(lane.accepted, flushed.value)
    requires Regular(From(lane.accepted, start), start, step)
    ensures n <= |From(lane.accepted, start)|
    ensures lane.store.packets == From(lane.accepted, start)[n..]
    ensures flushed.None? ==> n == 0
    ensures flushed.Some? ==> n > 0 && flushed.value == start + (n - 1) * step
  {
    hide From, Between, SizeOf;
    var all := From(lane.accepted, start);
    FromMembers(lane.accepted, start);
    if flushed.None? {
      n := 0;
    } else {
      var q :| q in lane.accepted && q.cts == flushed.value;
      assert q in all;
      n := CutAfter(all, q);
      FromFrom(lane.accepted, start, flushed.value + 1);
    }
  }

  lemma CutAfter(s: seq<Packet>, q: Packet) returns (n: nat)
    requires Sorted(s) && q in s
    ensures 0 < n <= |s| && s[n - 1] == q
    ensures From(s, q.cts + 1) == s[n..]
  {
    hide From, UpTo;
    var i :| 0 <= i < |s| && s[i] == q;
    n := i + 1;
    CutAt(s, q.cts + 1, n);
  }

  lemma SameCount(n: nat, m: nat, start: nat, step: nat, flushed: Option<nat>)
    requires step > 0
    requires flushed.None? ==> n == 0 && m == 0
    requires flushed.Some? ==> n > 0 && m > 0 && start + (n - 1) * step == flushed.value == start + (m - 1) * step
    ensures n == m
  {
    if flushed.Some? {
      Distinct(n - 1, m - 1, step);
    }
  }

  lemma NewestOfLane(lane: Lane, start: nat, step: nat)
    requires LaneOk(lane) && KeyframeAt(lane.accepted, start) && Regular(From(lane.accepted, start), start, step)
    ensures |From(lane.accepted, start)| > 0
    ensures lane.maxCts == start + (|From(lane.accepted, start)| - 1) * step
  {
    hide From;
    NewestSurvives(lane.accepted, start);
  }

  /** In a settled session whose next packets are on time, the watermark lies below them. */
  lemma SettledBelowNext(s: Session, config: Config, n: nat, step: nat)
    requires Inv(s, config) && s.state == Running && step == config.expectedStep && step > 0
    requires |s.a.store.packets| > 0 && |s.b.store.packets| > 0
    requires var next := s.range.value.start + n * step;
             && s.a.store.packets[0].cts == next == s.b.store.packets[0].cts
             && (s.flushed.Some? ==> n > 0 && s.flushed.value == s.range.value.start + (n - 1) * step)
    ensures var upper := Watermark(s, config.reorderSafety);
            upper.Some? ==> upper.value < s.range.value.start + n * step
  {
    hide From, Between;
    LiveStore(s.a, s.range.value.start, s.flushed);
    LiveStore(s.b, s.range.value.start, s.flushed);
    var upper := Watermark(s, config.reorderSafety);
    if upper.Some? {
      FirstIsCommon(s, upper.value);
      if s.flushed.Some? {
        assert n * step == (n - 1) * step + step;
      }
    }
  }

  /** Retained memory does not grow with the run: on a regular timeline where one stream leads by at most
      `lead` packets, each store of a running session holds at most the lead plus the safety window. */
  lemma BoundedTail(config: Config, budgetA: nat, budgetB: nat, events: seq<Event>, lead: nat)
    requires config.expectedStep > 0
    requires var s := Reached(config, budgetA, budgetB, events);
             s.state == Running && s.range.Some? &&
             var start, step := s.range.value.start, config.expectedStep;
             var x, y := From(s.a.accepted, start), From(s.b.accepted, start);
             Regular(x, start, step) && Regular(y, start, step) && |x| <= |y| + lead && |y| <= |x| + lead
    ensures var s := Reached(config, budgetA, budgetB, events);
            && |s.a.store.packets| <= lead + config.reorderSafety / config.expectedStep + 1
            && |s.b.store.packets| <= lead + config.reorderSafety / config.expectedStep + 1
  {
    hide Run, From, Between, Regular, Inv;
    var s := Reached(config, budgetA, budgetB, events);
    InitialInv(config, budgetA, budgetB);
    RunKeepsInv(Initial(config, budgetA, budgetB), config, events);
    var n := ShedPackets(s, config);
  }

  /** On regular timelines both stores have shed the same number of packets, and unless one of them is
      empty, the next packet is within a safety window of the slower stream. */
  lemma ShedPackets(s: Session, config: Config) returns (n: nat)
    requires Inv(s, config) && s.state == Running && config.expectedStep > 0
    requires Regular(From(s.a.accepted, s.range.value.start), s.range.value.start, config.expectedStep)
    requires Regular(From(s.b.accepted, s.range.value.start), s.range.value.start, config.expectedStep)
    ensures var x, y := From(s.a.accepted, s.range.value.start), From(s.b.accepted, s.range.value.start);
            && n <= |x| && n <= |y|
            && |s.a.store.packets| == |x| - n && |s.b.store.packets| == |y| - n
            && (n < |x| <= |y| ==> |x| - 1 - n <= config.reorderSafety / config.expectedStep)
            && (n < |y| <= |x| ==> |y| - 1 - n <= config.reorderSafety / config.expectedStep)
  {
    hide From, Between, Settled, SizeOf;
    var start, step, safety := s.range.value.start, config.expectedStep, config.reorderSafety;
    var x, y := From(s.a.accepted, start), From(s.b.accepted, start);
    if s.flushed.Some? {
      FlushedIsShared(s);
    }
    n := RegularStore(s.a, start, s.flushed, step);
    var n' := RegularStore(s.b, start, s.flushed, step);
    SameCount(n, n', start, step, s.flushed);
    var m := if |x| < |y| then |x| else |y|;
    if n < m {
      NewestOfLane(s.a, start, step);
      NewestOfLane(s.b, start, step);
      SettledBelowNext(s, config, n, step);
      FurtherOut(m - 1, |x| - 1, step);
      FurtherOut(m - 1, |y| - 1, step);
      WindowGap(s, m, n, step, safety);
      Quotient(m - 1 - n, step, safety);
    }
  }

  lemma FurtherOut(i: nat, j: nat, step: nat)
    requires i <= j
    ensures i * step <= j * step
  {
    if i < j {
      NextMultiple(i, j, step);
    }
  }

  lemma WindowGap(s: Session, m: nat, n: nat, step: nat, safety: nat)
    requires s.range.Some? && n < m
    requires s.a.maxCts >= s.range.value.start + (m - 1) * step && s.b.maxCts >= s.range.value.start + (m - 1) * step
    requires var upper := Watermark(s, safety); upper.Some? ==> upper.value < s.range.value.start + n * step
    ensures (m - 1 - n) * step < safety
  {
    assert (m - 1 - n) * step == (m - 1) * step - n * step;
  }

  lemma FlushedIsShared(s: Session)
    requires Live(s) && s.flushed.Some?
    ensures HasCts(s.a.accepted, s.flushed.value) && HasCts(s.b.accepted, s.flushed.value)
  {
    hide From, UpTo, Between;
    var start, last := s.range.value.start, s.flushed.value;
    BetweenMembers(s.a.accepted, start, last);
    BetweenMembers(s.b.accepted, start, last);
    assert HasCts(Kept(s.a, start, s.flushed), last);
    SameCts(Kept(s.a, start, s.flushed), Kept(s.b, start, s.flushed), last);
  }

  // ---- gaps in the timeline

  ghost predicate OnGrid(x: seq<Packet>, step: nat) {
    forall i :: 0 < i < |x| ==> OnCadence(x[i - 1].cts, x[i].cts, step)
  }

  lemma GridConcat(x: seq<Packet>, y: seq<Packet>, step: nat)
    requires |y| > 0
    ensures OnGrid(x + y, step) <==>
            OnGrid(x, step) && OnGrid(y, step) && (|x| > 0 ==> OnCadence(x[|x| - 1].cts, y[0].cts, step))
  {
    var z := x + y;
    if OnGrid(z, step) {
      forall i | 0 < i < |x| ensures OnCadence(x[i - 1].cts, x[i].cts, step) {
        assert z[i] == x[i] && z[i - 1] == x[i - 1];
      }
      forall i | 0 < i < |y| ensures OnCadence(y[i - 1].cts, y[i].cts, step) {
        assert z[|x| + i] == y[i] && z[|x| + i - 1] == y[i - 1];
      }
      if |x| > 0 { assert z[|x|] == y[0] && z[|x| - 1] == x[|x| - 1]; }
    }
  }

  lemma BatchOnGrid(x: seq<Packet>, y: seq<Packet>, start: nat, upper: nat, step: nat)
    requires Sorted(x) && Sorted(y) && From(x, start) == x && From(y, start) == y
    requires PrefixEnd(x, y, start, upper, step) == Some(upper)
    ensures OnGrid(UpTo(x, upper), step) && |UpTo(x, upper)| > 0 && UpTo(x, upper)[0] == x[0]
  {
    hide From, UpTo;
    PrefixAgrees(x, y, start, upper, step);
    var k := PrefixLength(CtsOf(x), CtsOf(y), upper, step);
    assert UpTo(x, upper) == x[..k];
    forall i | 0 < i < k ensures OnCadence(x[i - 1].cts, x[i].cts, step) {
      assert CtsOf(x)[i - 1] == x[i - 1].cts && CtsOf(x)[i] == x[i].cts;
    }
  }

  lemma LastKept(lane: Lane, start: nat, last: nat)
    requires Sorted(lane.accepted) && start <= last && HasCts(lane.accepted, last)
    ensures |Between(lane.accepted, start, last)| > 0
    ensures MaxCts(Between(lane.accepted, start, last)) == last
  {
    hide From, UpTo, Between;
    var kept := Between(lane.accepted, start, last);
    BetweenMembers(lane.accepted, start, last);
    var q :| q in lane.accepted && q.cts == last;
    assert q in kept;
    var i :| 0 <= i < |kept| && kept[i] == q;
    assert kept[|kept| - 1] in kept;
  }

  /** `y` continues `x` by packets that keep the cadence among themselves. */
  ghost predicate Appends(x: seq<Packet>, y: seq<Packet>, step: nat) {
    |x| <= |y| && y[..|x|] == x && OnGrid(y[|x|..], step)
  }

  lemma NothingAppended(x: seq<Packet>, step: nat)
    ensures Appends(x, x, step)
  {
  }

  /** A flush appends one batch, which keeps the cadence and begins with the first stored packet. */
  lemma FlushAppends(s: Session, cts: nat)
    requires Live(s) && Inferred(s) == s && s.state != Failed
    requires NextCts(s.range.value.start, s.flushed) <= cts && Selected(s, cts) == Some(cts)
    requires FlushedThrough(s, cts).state != Failed
    ensures var t, start := FlushedThrough(s, cts), s.range.value.start;
            var x, y := Kept(s.a, start, s.flushed), Kept(t.a, start, t.flushed);
            && t.flushed == Some(cts) && Appends(x, y, s.step)
            && |s.a.store.packets| > 0 && |x| < |y| && y[|x|] == s.a.store.packets[0]
  {
    hide From, UpTo, Between, DecodeSort, SizeOf;
    var start := s.range.value.start;
    FlushKeepsLive(s, cts);
    KeptExtends(s.a, start, s.flushed, cts);
    LiveStore(s.a, start, s.flushed);
    LiveStore(s.b, start, s.flushed);
    BatchOnGrid(s.a.store.packets, s.b.store.packets, start, cts, s.step);
    var x, batch := Kept(s.a, start, s.flushed), UpTo(s.a.store.packets, cts);
    assert (x + batch)[|x|..] == batch && (x + batch)[..|x|] == x;
  }

  /** What is committed keeps the expected cadence exactly if every commit continues the previous one on cadence.
      Nothing checks that: `FirstIsCommon` lets the next batch begin wherever both stores begin. */
  lemma CommittedOnGrid(s: Session, cts: nat)
    requires Live(s) && Inferred(s) == s && s.state != Failed
    requires NextCts(s.range.value.start, s.flushed) <= cts && Selected(s, cts) == Some(cts)
    requires FlushedThrough(s, cts).state != Failed
    ensures |s.a.store.packets| > 0
    ensures OnGrid(Kept(FlushedThrough(s, cts).a, s.range.value.start, Some(cts)), s.step) <==>
            OnGrid(Kept(s.a, s.range.value.start, s.flushed), s.step) &&
            (s.flushed.Some? ==> OnCadence(s.flushed.value, s.a.store.packets[0].cts, s.step))
  {
    hide LiveLane, Paired, Kept, FlushedThrough, OnGrid, Selected;
    var start := s.range.value.start;
    FlushAppends(s, cts);
    var x, y := Kept(s.a, start, s.flushed), Kept(FlushedThrough(s, cts).a, start, Some(cts));
    assert y == x + y[|x|..];
    GridConcat(x, y[|x|..], s.step);
    LastCommitted(s);
  }

  lemma LastCommitted(s: Session)
    requires Live(s)
    ensures var x := Kept(s.a, s.range.value.start, s.flushed);
            if s.flushed.None? then x == [] else |x| > 0 && x[|x| - 1].cts == s.flushed.value
  {
    hide From, UpTo, Between;
    if s.flushed.Some? {
      LastKept(s.a, s.range.value.start, s.flushed.value);
    }
  }

  /** What the session has committed: the packets of stream A; those of stream B have the same CTS values. */
  ghost function Timeline(s: Session): seq<Packet> {
    if s.range.None? then [] else Kept(s.a, s.range.value.start, s.flushed)
  }

  lemma StableAppends(s: Session, config: Config)
    requires s.state == Running && Live(s) && s.step == config.expectedStep != 0
    requires StableFlushed(s, config.reorderSafety).state != Failed
    ensures Appends(Timeline(s), Timeline(StableFlushed(s, config.reorderSafety)), config.expectedStep)
  {
    hide From, UpTo, Kept, LiveLane, Paired, FlushedThrough, Appends, Selected;
    InferredKeepsLive(s);
    NothingAppended(Timeline(s), s.step);
    var upper := Watermark(s, config.reorderSafety);
    if upper.Some? && Selected(s, upper.value).Some? {
      var cts := Selected(s, upper.value).value;
      SelectedIsNew(s, upper.value);
      if !(s.flushed.Some? && cts <= s.flushed.value) {
        FlushAppends(s, cts);
      }
    }
  }

  lemma AcceptAppends(s: Session, config: Config, stream: Stream, p: Packet)
    requires Inv(s, config) && config.expectedStep != 0 && Arrives(s, p)
    requires LaneOf(s, stream).store.PushOutcome(p) == Retained && Submitted(s, config, stream, p).state != Failed
    ensures Appends(Timeline(s), Timeline(Submitted(s, config, stream, p)), config.expectedStep)
  {
    hide From, UpTo, Insert, SizeOf, Kept, StableFlushed, Established, Appends, Settled, CommonStart;
    var t := WithLane(s, stream, Accepting(LaneOf(s, stream), p));
    if s.state == Starting {
      AcceptKeepsLane(LaneOf(s, stream), p);
      StartAppends(t, config);
    } else {
      AcceptKeepsLiveLane(LaneOf(s, stream), s.range.value.start, s.flushed, p);
      AcceptKeepsLive(s, stream, p, config.reorderSafety);
      NothingAppended(Timeline(s), config.expectedStep);
      if s.state == Running {
        StableAppends(t, config);
      }
    }
  }

  lemma StartAppends(s: Session, config: Config)
    requires s.state == Starting && Waiting(s) && s.step == config.expectedStep != 0
    requires Established(s, config).state != Failed
    ensures Appends([], Timeline(Established(s, config)), config.expectedStep)
  {
    hide From, UpTo, SizeOf, StableFlushed, Established, Appends, CommonStart;
    NothingAppended([], config.expectedStep);
    var c := CommonStart(s.a.accepted, s.b.accepted, s.requestedStart);
    if c.None? {
      StillWaiting(s, config);
    } else {
      EstablishFails(s, c.value, config);
      BegunFrom(s, c.value, config);
      var u := Begun(s, c.value, config.tailCapacity);
      StableAppends(u, config);
    }
  }

  lemma BegunFrom(s: Session, c: nat, config: Config)
    requires s.state == Starting && Waiting(s) && s.step == config.expectedStep != 0
    requires CommonStart(s.a.accepted, s.b.accepted, s.requestedStart) == Some(c)
    requires !TooMuchTail(s, c, config.tailCapacity) && s.a.sink.budget > 0 && s.b.sink.budget > 0
    ensures var u := Begun(s, c, config.tailCapacity); Live(u) && Inferred(u) == u && Timeline(u) == []
  {
    hide From, UpTo, SizeOf, LiveLane, Paired;
    BegunIsLive(s, c, config.tailCapacity);
  }

  lemma DrainAppends(s: Session, config: Config)
    requires Inv(s, config) && config.expectedStep != 0 && s.state == Draining && Drained(s).state != Failed
    ensures Appends(Timeline(s), Timeline(Drained(s)), config.expectedStep)
  {
    hide From, UpTo, Between, LiveLane, FlushedThrough, Appends, Selected, Settled;
    InferredKeepsLive(s);
    NothingAppended(Timeline(s), s.step);
    if Selected(s, s.requestedStop).Some? {
      SelectedIsNew(s, s.requestedStop);
      FlushAppends(s, Selected(s, s.requestedStop).value);
    } else if s.flushed.Some? {
      NothingToDrain(s);
    } else {
      StartIsStored(s.a, s.range.value.start);
      StartIsStored(s.b, s.range.value.start);
      FirstIsCommon(s, s.requestedStop);
    }
  }

  lemma NothingToDrain(s: Session)
    requires s.range.Some? && s.flushed.Some?
    ensures s.range.value.start <= s.flushed.value ==> FlushedThrough(s, s.flushed.value) == s
  {
  }

  /** No call takes back what is committed, and what it appends keeps the cadence. */
  lemma StepAppends(s: Session, config: Config, event: Event)
    requires Inv(s, config) && config.expectedStep != 0 && After(s, config, event).state != Failed
    ensures s.state != Failed && Appends(Timeline(s), Timeline(After(s, config, event)), config.expectedStep)
  {
    hide Inv, Submitted, Drained, Polled, Appends, Kept;
    NothingAppended(Timeline(s), config.expectedStep);
    match event
    case Start(_) =>
    case Submit(stream, p) => SubmitAppends(s, config, stream, p);
    case Poll(currentCts) => PollDoesNothing(s, config, currentCts);
    case RequestStop(_) =>
    case CompleteDrain =>
      if s.state == Draining {
        DrainAppends(s, config);
      } else {
        NoDrain(s);
      }
    case Abort =>
  }

  lemma NoDrain(s: Session)
    requires s.state != Draining
    ensures Drained(s) == s
  {
  }

  lemma SubmitAppends(s: Session, config: Config, stream: Stream, p: Packet)
    requires Inv(s, config) && config.expectedStep != 0 && Submitted(s, config, stream, p).state != Failed
    ensures s.state != Failed
    ensures Appends(Timeline(s), Timeline(Submitted(s, config, stream, p)), config.expectedStep)
  {
    hide Inv, Submitted, Appends, Kept, Arrives;
    NothingAppended(Timeline(s), config.expectedStep);
    if Arrives(s, p) && LaneOf(s, stream).store.PushOutcome(p) == Retained {
      AcceptAppends(s, config, stream, p);
      ArrivesActive(s, p);
    } else {
      RefusedKeepsInv(s, config, stream, p);
    }
  }

  lemma ArrivesActive(s: Session, p: Packet)
    requires Arrives(s, p)
    ensures s.state != Failed
  {
  }

  /** Two commits of the run meet at index `i`: before one of its calls, exactly `i` packets were committed. */
  ghost predicate Seam(config: Config, budgetA: nat, budgetB: nat, events: seq<Event>, i: nat) {
    exists k :: 0 <= k <= |events| && |Timeline(Reached(config, budgetA, budgetB, events[..k]))| == i
  }

  /** With a configured cadence, in every run that has not failed, what is committed keeps the cadence except where
      one commit follows another. */
  lemma {:induction false} BreaksAreSeams(config: Config, budgetA: nat, budgetB: nat, events: seq<Event>, i: nat)
    requires config.expectedStep != 0 && Reached(config, budgetA, budgetB, events).state != Failed
    requires var x := Timeline(Reached(config, budgetA, budgetB, events));
             0 < i < |x| && !OnCadence(x[i - 1].cts, x[i].cts, config.expectedStep)
    ensures Seam(config, budgetA, budgetB, events, i)
  {
    hide After, Inv, Timeline;
    if |events| > 0 {
      var init, last := events[..|events| - 1], events[|events| - 1];
      var before := Reached(config, budgetA, budgetB, init);
      InitialInv(config, budgetA, budgetB);
      RunKeepsInv(Initial(config, budgetA, budgetB), config, init);
      StepAppends(before, config, last);
      var x, y := Timeline(before), Timeline(Reached(config, budgetA, budgetB, events));
      if i < |x| {
        assert x[i - 1] == y[i - 1] && x[i] == y[i];
        BreaksAreSeams(config, budgetA, budgetB, init, i);
        EarlierSeam(config, budgetA, budgetB, events, i);
      } else if i == |x| {
        assert events[..|init|] == init;
      } else {
        AppendedOnCadence(x, y, config.expectedStep, i);
      }
    } else {
      NothingYet(config, budgetA, budgetB);
    }
  }

  lemma AppendedOnCadence(x: seq<Packet>, y: seq<Packet>, step: nat, i: nat)
    requires Appends(x, y, step) && |x| < i < |y|
    ensures OnCadence(y[i - 1].cts, y[i].cts, step)
  {
    var rest := y[|x|..];
    assert rest[i - |x|] == y[i] && rest[i - |x| - 1] == y[i - 1];
  }

  lemma NothingYet(config: Config, budgetA: nat, budgetB: nat)
    ensures Timeline(Reached(config, budgetA, budgetB, [])) == []
  {
  }

  lemma EarlierSeam(config: Config, budgetA: nat, budgetB: nat, events: seq<Event>, i: nat)
    requires |events| > 0 && Seam(config, budgetA, budgetB, events[..|events| - 1], i)
    ensures Seam(config, budgetA, budgetB, events, i)
  {
    hide Run, Timeline;
    var init := events[..|events| - 1];
    var k :| 0 <= k <= |init| && |Timeline(Reached(config, budgetA, budgetB, init[..k]))| == i;
    assert init[..k] == events[..k];
  }

  /** Over whole runs: what is committed keeps the configured cadence exactly if it does where one commit follows
      another. */
  lemma CadenceExactly(config: Config, budgetA: nat, budgetB: nat, events: seq<Event>)
    requires config.expectedStep != 0 && Reached(config, budgetA, budgetB, events).state != Failed
    ensures var x := Timeline(Reached(config, budgetA, budgetB, events));
            OnGrid(x, config.expectedStep) <==>
            forall i :: 0 < i < |x| && Seam(config, budgetA, budgetB, events, i) ==>
              OnCadence(x[i - 1].cts, x[i].cts, config.expectedStep)
  {
    hide Timeline, Seam, Reached, OnCadence;
    var x := Timeline(Reached(config, budgetA, budgetB, events));
    if forall i :: 0 < i < |x| && Seam(config, budgetA, budgetB, events, i) ==>
         OnCadence(x[i - 1].cts, x[i].cts, config.expectedStep)
    {
      forall i | 0 < i < |x| ensures OnCadence(x[i - 1].cts, x[i].cts, config.expectedStep) {
        if !OnCadence(x[i - 1].cts, x[i].cts, config.expectedStep) {
          BreaksAreSeams(config, budgetA, budgetB, events, i);
        }
      }
    }
  }
}
