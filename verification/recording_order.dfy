/** In which order packets reach the sinks: commit by commit, each commit in stable decode order. */
module RecordingOrder {
  import opened Packets
  import opened DecodeOrder
  import opened PacketBuffer
  import opened CommonRange
  import opened PacketSinks
  import opened RecordingModel
  import opened RecordingInvariant
  import opened RecordingTheorems

  /** The packets accepted after the previous commit, or from the start, through the commit at `cuts[k]`. */
  ghost function Part(accepted: seq<Packet>, start: nat, cuts: seq<nat>, k: nat): seq<Packet>
    requires k < |cuts|
  {
    Between(accepted, if k == 0 then start else cuts[k - 1] + 1, cuts[k])
  }

  /** The list consists of one batch per commit, and each batch is a stable decode-order sort of its part. */
  ghost predicate InBatches(written: seq<Packet>, accepted: seq<Packet>, start: nat, cuts: seq<nat>)
    decreases |cuts|
  {
    if |cuts| == 0 then written == []
    else
      var n := |cuts| - 1;
      exists m :: 0 <= m <= |written| && InBatches(written[..m], accepted, start, cuts[..n])
                  && StableSortOf(written[m..], Part(accepted, start, cuts, n))
  }

  /** The commits go upwards from the start, and the last one is `flushed`. */
  ghost predicate Commits(cuts: seq<nat>, start: nat, flushed: Option<nat>) {
    && (forall i, j :: 0 <= i < j < |cuts| ==> cuts[i] < cuts[j])
    && (|cuts| > 0 ==> start <= cuts[0] && flushed == Some(cuts[|cuts| - 1]))
    && (|cuts| == 0 ==> flushed.None?)
  }

  ghost predicate OrderedAt(s: Session, cuts: seq<nat>)
    requires s.range.Some?
  {
    && Commits(cuts, s.range.value.start, s.flushed)
    && InBatches(s.a.sink.written, s.a.accepted, s.range.value.start, cuts)
    && InBatches(s.b.sink.written, s.b.accepted, s.range.value.start, cuts)
  }

  /** Both sinks were written in the same commits. */
  ghost predicate Ordered(s: Session) {
    s.range.Some? ==> exists cuts :: OrderedAt(s, cuts)
  }

  // ---- one commit

  lemma PartOfPrefix(accepted: seq<Packet>, start: nat, cuts: seq<nat>, k: nat)
    requires k < |cuts| - 1
    ensures Part(accepted, start, cuts, k) == Part(accepted, start, cuts[..|cuts| - 1], k)
  {
  }

  lemma BatchAdded(before: Sink, after: Sink, accepted: seq<Packet>, start: nat, cuts: seq<nat>, cts: nat)
    requires InBatches(before.written, accepted, start, cuts)
    requires SinkTook(before, after, Part(accepted, start, cuts + [cts], |cuts|))
    ensures InBatches(after.written, accepted, start, cuts + [cts])
  {
    hide StableSortOf, Part;
    var more := cuts + [cts];
    assert more[..|more| - 1] == cuts;
    assert after.written[..|before.written|] == before.written;
  }

  /** What a live lane commits next is the part after its last commit. */
  lemma NextPart(lane: Lane, start: nat, flushed: Option<nat>, cuts: seq<nat>, cts: nat)
    requires LiveLane(lane, start, flushed) && Commits(cuts, start, flushed)
    ensures UpTo(lane.store.packets, cts) == Part(lane.accepted, start, cuts + [cts], |cuts|)
  {
    hide From, UpTo;
    assert |cuts| > 0 ==> (cuts + [cts])[|cuts| - 1] == cuts[|cuts| - 1];
  }

  lemma FlushOrdered(s: Session, cts: nat, cuts: seq<nat>)
    requires Live(s) && Inferred(s) == s && s.state != Failed && OrderedAt(s, cuts)
    requires NextCts(s.range.value.start, s.flushed) <= cts && Selected(s, cts) == Some(cts)
    requires FlushedThrough(s, cts).state != Failed
    ensures OrderedAt(FlushedThrough(s, cts), cuts + [cts])
  {
    hide From, UpTo, InBatches, SinkTook, Selected, FlushedThrough, Part;
    var t, start := FlushedThrough(s, cts), s.range.value.start;
    FlushKeepsLive(s, cts);
    NextPart(s.a, start, s.flushed, cuts, cts);
    NextPart(s.b, start, s.flushed, cuts, cts);
    hide LiveLane, Paired;
    BatchAdded(s.a.sink, t.a.sink, s.a.accepted, start, cuts, cts);
    BatchAdded(s.b.sink, t.b.sink, s.b.accepted, start, cuts, cts);
    CommitAdded(cuts, start, s.flushed, cts);
  }

  lemma CommitAdded(cuts: seq<nat>, start: nat, flushed: Option<nat>, cts: nat)
    requires Commits(cuts, start, flushed) && NextCts(start, flushed) <= cts
    requires start <= cts
    ensures Commits(cuts + [cts], start, Some(cts))
  {
  }

  // ---- one call

  /** A packet above every commit changes no batch. */
  lemma {:induction false} BatchesInsert(written: seq<Packet>, accepted: seq<Packet>, start: nat, cuts: seq<nat>,
                                         p: Packet)
    requires InBatches(written, accepted, start, cuts) && Sorted(accepted)
    requires forall i :: 0 <= i < |cuts| ==> cuts[i] < p.cts
    ensures InBatches(written, Insert(accepted, p), start, cuts)
    decreases |cuts|
  {
    hide Insert, Between, StableSortOf, Sorted;
    if |cuts| > 0 {
      var n := |cuts| - 1;
      var m :| 0 <= m <= |written| && InBatches(written[..m], accepted, start, cuts[..n])
               && StableSortOf(written[m..], Part(accepted, start, cuts, n));
      BatchesInsert(written[..m], accepted, start, cuts[..n], p);
      BetweenInsert(accepted, p, if n == 0 then start else cuts[n - 1] + 1, cuts[n]);
      assert StableSortOf(written[m..], Part(Insert(accepted, p), start, cuts, n));
    }
  }

  lemma StableOrdered(s: Session, config: Config, cuts: seq<nat>)
    requires s.state == Running && Live(s) && OrderedAt(s, cuts)
    requires StableFlushed(s, config.reorderSafety).state != Failed
    ensures Ordered(StableFlushed(s, config.reorderSafety))
  {
    hide LiveLane, Paired, FlushedThrough, InBatches, Selected, Commits;
    InferredTwice(s);
    InferredKeepsLive(s);
    var t := Inferred(s);
    assert OrderedAt(t, cuts);
    var upper := Watermark(t, config.reorderSafety);
    if upper.Some? && Selected(t, upper.value).Some? {
      var cts := Selected(t, upper.value).value;
      SelectedIsNew(t, upper.value);
      if !(t.flushed.Some? && cts <= t.flushed.value) {
        FlushOrdered(t, cts, cuts);
      }
    }
  }

  lemma AcceptOrdered(s: Session, config: Config, stream: Stream, p: Packet)
    requires Inv(s, config) && Ordered(s) && Arrives(s, p)
    requires LaneOf(s, stream).store.PushOutcome(p) == Retained && Submitted(s, config, stream, p).state != Failed
    ensures Ordered(Submitted(s, config, stream, p))
  {
    hide From, UpTo, Insert, SizeOf, StableFlushed, Established, InBatches, Settled, CommonStart, Kept;
    var t := WithLane(s, stream, Accepting(LaneOf(s, stream), p));
    if s.state == Starting {
      AcceptKeepsLane(LaneOf(s, stream), p);
      StartOrdered(t, config);
    } else {
      var cuts :| OrderedAt(s, cuts);
      AcceptKeepsLive(s, stream, p, config.reorderSafety);
      AcceptKeepsCuts(s, stream, p, cuts);
      if s.state == Running {
        StableOrdered(t, config, cuts);
      }
    }
  }

  lemma AcceptKeepsCuts(s: Session, stream: Stream, p: Packet, cuts: seq<nat>)
    requires Live(s) && OrderedAt(s, cuts) && NextCts(s.range.value.start, s.flushed) <= p.cts
    ensures OrderedAt(WithLane(s, stream, Accepting(LaneOf(s, stream), p)), cuts)
  {
    hide From, UpTo, Insert, SizeOf, InBatches, Kept, Sorted;
    var lane := LaneOf(s, stream);
    BatchesInsert(lane.sink.written, lane.accepted, s.range.value.start, cuts, p);
  }

  lemma StartOrdered(s: Session, config: Config)
    requires s.state == Starting && Waiting(s) && Established(s, config).state != Failed
    ensures Ordered(Established(s, config))
  {
    hide From, UpTo, SizeOf, StableFlushed, Established, CommonStart, InferredStep, LiveLane, Paired;
    var c := CommonStart(s.a.accepted, s.b.accepted, s.requestedStart);
    if c.None? {
      StillWaiting(s, config);
    } else {
      EstablishFails(s, c.value, config);
      BegunIsLive(s, c.value, config.tailCapacity);
      var u := Inferred(Begun(s, c.value, config.tailCapacity));
      InferredKeepsLive(Begun(s, c.value, config.tailCapacity));
      assert OrderedAt(u, []);
      StableOrdered(u, config, []);
    }
  }

  lemma DrainOrdered(s: Session, config: Config)
    requires Inv(s, config) && Ordered(s) && s.state == Draining && Drained(s).state != Failed
    ensures Ordered(Drained(s))
  {
    hide From, UpTo, Between, LiveLane, FlushedThrough, InBatches, Selected, Settled, Mismatches;
    var cuts :| OrderedAt(s, cuts);
    InferredTwice(s);
    InferredKeepsLive(s);
    if Selected(s, s.requestedStop).Some? {
      var cts := Selected(s, s.requestedStop).value;
      SelectedIsNew(s, s.requestedStop);
      DrainedAsInferred(s, cts);
      FlushOrdered(Inferred(s), cts, cuts);
      FinalizeKeepsOrder(FlushedThrough(s, cts), cts, cuts + [cts]);
    } else {
      NoCandidate(s);
      if s.flushed.Some? {
        LastCommitStands(s);
        FinalizeKeepsOrder(s, s.flushed.value, cuts);
      }
    }
  }

  /** Without a candidate, the drain ends at the last commit. */
  lemma LastCommitStands(s: Session)
    requires Live(s) && s.state == Draining && s.flushed.Some? && Selected(s, s.requestedStop).None?
    ensures Drained(s) == Finalized(s, s.flushed.value)
  {
    hide From, UpTo, Between, LiveLane, PrefixEnd, Kept;
  }

  lemma DrainedAsInferred(s: Session, cts: nat)
    requires Live(s) && s.state == Draining && Selected(s, s.requestedStop) == Some(cts) && Drained(s).state != Failed
    ensures FlushedThrough(s, cts).state != Failed && FlushedThrough(s, cts) == FlushedThrough(Inferred(s), cts)
    ensures Selected(Inferred(s), cts) == Some(cts) && Drained(s) == Finalized(FlushedThrough(s, cts), cts)
  {
    hide From, UpTo, Between, LiveLane, RecordingModel.Committed, PrefixEnd, InferredStep, Kept;
    SelectedIsNew(s, s.requestedStop);
    InferredTwice(s);
  }

  lemma FinalizeKeepsOrder(s: Session, end: nat, cuts: seq<nat>)
    requires s.range.Some? && OrderedAt(s, cuts)
    ensures Finalized(s, end).state != Failed ==> OrderedAt(Finalized(s, end), cuts)
  {
    hide InBatches, Commits;
  }

  lemma SubmitOrdered(s: Session, config: Config, stream: Stream, p: Packet)
    requires Inv(s, config) && Ordered(s) && Submitted(s, config, stream, p).state != Failed
    ensures s.state != Failed && Ordered(Submitted(s, config, stream, p))
  {
    hide Inv, Submitted, Ordered, Arrives;
    if Arrives(s, p) && LaneOf(s, stream).store.PushOutcome(p) == Retained {
      AcceptOrdered(s, config, stream, p);
      ActiveWhenArriving(s, p);
    } else {
      RefusedKeepsInv(s, config, stream, p);
    }
  }

  lemma ActiveWhenArriving(s: Session, p: Packet)
    requires Arrives(s, p)
    ensures s.state != Failed
  {
  }

  lemma StepOrdered(s: Session, config: Config, event: Event)
    requires Inv(s, config) && Ordered(s) && After(s, config, event).state != Failed
    ensures s.state != Failed && Ordered(After(s, config, event))
  {
    hide Inv, Submitted, Drained, Polled, InBatches;
    match event
    case Start(_) => RequestKeepsOrder(s, config, event);
    case Submit(stream, p) => SubmitOrdered(s, config, stream, p);
    case Poll(currentCts) => PollDoesNothing(s, config, currentCts);
    case RequestStop(_) => RequestKeepsOrder(s, config, event);
    case CompleteDrain =>
      if s.state == Draining {
        DrainOrdered(s, config);
      } else {
        NothingDrained(s);
      }
    case Abort =>
  }

  /** The calls that touch no sink. */
  lemma RequestKeepsOrder(s: Session, config: Config, event: Event)
    requires (event.RequestStop? || event.Start?) && Ordered(s)
    ensures var t := After(s, config, event); t.state != Failed ==> s.state != Failed && Ordered(t)
  {
    hide InBatches;
    var t := After(s, config, event);
    if t.state != Failed && s.range.Some? {
      var cuts :| OrderedAt(s, cuts);
      assert OrderedAt(t, cuts);
    }
  }

  lemma NothingDrained(s: Session)
    requires s.state != Draining
    ensures Drained(s) == s
  {
  }

  /** In every run that has not failed: there is one list of commits, going upwards from the start to the last one, and
      each sink was written in one batch per commit, which is a stable decode-order sort of exactly the packets accepted
      between the commits. */
  lemma {:induction false} CommitOrder(config: Config, budgetA: nat, budgetB: nat, events: seq<Event>)
    requires Reached(config, budgetA, budgetB, events).state != Failed
    ensures Ordered(Reached(config, budgetA, budgetB, events))
  {
    hide After, Inv, OrderedAt;
    if |events| > 0 {
      var init := events[..|events| - 1];
      var before := Reached(config, budgetA, budgetB, init);
      InitialInv(config, budgetA, budgetB);
      RunKeepsInv(Initial(config, budgetA, budgetB), config, init);
      if before.state == Failed {
        FailedStays(before, config, events[|events| - 1]);
      }
      CommitOrder(config, budgetA, budgetB, init);
      StepOrdered(before, config, events[|events| - 1]);
    }
  }

  lemma FailedStays(s: Session, config: Config, event: Event)
    requires s.state == Failed
    ensures After(s, config, event).state == Failed
  {
  }
}
