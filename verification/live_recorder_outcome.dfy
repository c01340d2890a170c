/** The outcome of a live recording as a function of what each stream delivered. */
module LiveRecorderOutcome {
  import opened Packets
  import opened MkvWriter
  import opened LiveRecorderModel
  import opened LiveRecorderSchedule

  // ---- outcomes of equivalent states

  lemma {:induction false} CloseKeeps(s: Core, i: nat)
    requires s.Shaped() && i <= |s.writers|
    ensures var t := ClosedFrom(s, i);
            && t.start == s.start && t.end == s.end && t.count == s.count && t.started == s.started
            && t.error in {s.error, Some(RangeMismatch)} && (s.error.Some? ==> t.error == s.error)
    decreases |s.writers| - i
  {
    if i < |s.writers| {
      if s.error.Some? {
        CloseKeeps(s.(writers := s.writers[i := s.writers[i].(isOpen := false)]), i + 1);
      } else {
        var (w, result) := Closed(s.writers[i]);
        var t := s.(writers := s.writers[i := w]);
        CloseKeeps(if !result.success || result.first != s.start || result.last != s.end
                   then t.(error := Some(RangeMismatch)) else t, i + 1);
      }
    }
  }

  lemma FailedOutcome(s: Core)
    requires s.Shaped() && s.error.Some?
    ensures OutcomeOf(Drained(s)) == Reported(s.error.value)
  {
  }

  lemma EquivalentOutcomes(s: Core, t: Core)
    requires s.Shaped() && t.Shaped() && Equivalent(s, t)
    ensures OutcomeOf(Drained(s)) == OutcomeOf(Drained(t))
    ensures ClosedFrom(Drained(s), 0).writers == ClosedFrom(Drained(t), 0).writers
  {
    if s.error.Some? {
      AbortedWriters(s, 0);
      AbortedWriters(t, 0);
    }
  }

  /** After a failure every file is abandoned as it is. */
  lemma {:induction false} AbortedWriters(s: Core, i: nat)
    requires s.Shaped() && i <= |s.writers| && s.error.Some?
    ensures var t := ClosedFrom(s, i);
            && |t.writers| == |s.writers|
            && forall j :: 0 <= j < |s.writers| ==>
                 t.writers[j] == if j < i then s.writers[j] else s.writers[j].(isOpen := false)
    decreases |s.writers| - i
  {
    if i < |s.writers| {
      AbortedWriters(s.(writers := s.writers[i := s.writers[i].(isOpen := false)]), i + 1);
    }
  }

  /** Settling before the final drain changes nothing. */
  lemma DrainSettled(s: Core)
    requires s.Shaped() && s.error.None?
    ensures Drained(Settled(s)) == Drained(s)
  {
    hide Settled;
    if Settled(s).error.None? {
      SettledTwice(s);
    }
  }

  /** The outcome of placing all packets first. */
  ghost function BatchOutcome(s: Core, items: seq<Item>): Outcome
    requires s.Shaped()
  {
    OutcomeOf(Drained(InsertedAll(s, items)))
  }

  // ---- headers that come too late

  lemma {:induction false} RefusalFails(s: Core, c: nat, i: nat, j: nat)
    requires s.Shaped() && i <= j < |s.pending| && InAll(s.pending, c) && s.error.None?
    requires !Opens(s.writers[j], s.configs[j])
    ensures OpenedFrom(s, c, i).error == Some(OpenFailed)
    decreases |s.pending| - i
  {
    if i < j && Opens(s.writers[i], s.configs[i]) {
      RefusalFails(s.(writers := s.writers[i := OpenedWriter(s.writers[i])],
                      origins := s.origins[i := s.pending[i][c].dts]), c, i + 1, j);
    }
  }

  lemma {:induction false} AllOpen(s: Core, c: nat, i: nat)
    requires s.Shaped() && i <= |s.pending| && InAll(s.pending, c) && s.error.None?
    requires forall j :: i <= j < |s.pending| ==> Opens(s.writers[j], s.configs[j])
    ensures OpenedFrom(s, c, i).error.None? && OpenedFrom(s, c, i).started
    decreases |s.pending| - i
  {
    if i < |s.pending| {
      AllOpen(s.(writers := s.writers[i := OpenedWriter(s.writers[i])],
                 origins := s.origins[i := s.pending[i][c].dts]), c, i + 1);
    }
  }

  ghost predicate SomeRefuses(s: Core)
    requires s.Shaped()
  {
    exists j :: 0 <= j < |s.pending| && !Opens(s.writers[j], s.configs[j])
  }

  /** An elected start fails to open exactly if the configuration of some stream or the library refuses. */
  lemma OpenFailsExactly(s: Core)
    requires s.Shaped() && s.error.None? && !s.started && Election(s.pending).Some?
    ensures Elected(s).error == (if SomeRefuses(s) then Some(OpenFailed) else None)
    ensures SomeRefuses(s) ==> Settled(s).error == Some(OpenFailed)
    ensures !SomeRefuses(s) ==> Settled(s).error in {None, Some(WriteFailed)}
  {
    hide Flushed;
    var c := Election(s.pending).value;
    TrimmedHasStart(s, c);
    if j :| 0 <= j < |s.pending| && !Opens(s.writers[j], s.configs[j]) {
      RefusalFails(Trimmed(s, c), c, 0, j);
    } else {
      AllOpen(Trimmed(s, c), c, 0);
      FlushKeepsStart(Elected(s));
    }
  }

  /** A header that arrives after the start was found without it: the recording fails to open its files. */
  lemma {:induction false} UntimelyFails(s: Core, items: seq<Item>)
    requires Blank(s) && Ordered(items) && !Timely(s, items)
    requires forall a :: 0 <= a < |items| ==> items[a].stream < |s.pending|
    requires !Overflowed(ProcessedAll(s, items))
    ensures Election(InsertedAll(s, items).pending).Some? && ProcessedAll(s, items).error == Some(OpenFailed)
  {
    hide Settled, Inserted, Election, TimelyHeader;
    var init, last := items[..|items| - 1], items[|items| - 1];
    var w := InsertedAll(s, init);
    OrderedInit(items);
    assert forall a :: 0 <= a < |init| ==> init[a] == items[a];
    InsertedAllKeys(s, init);
    NextIsFresh(s, items);
    if Timely(s, init) {
      StreamingIsBatch(s, init);
      UntimelyElection(w, last);
      OpenFailsExactly(w);
    } else {
      UntimelyFails(s, init);
    }
    ElectionInsert(w, last);
  }

  lemma UntimelyElection(s: Core, item: Item)
    requires s.Shaped() && item.stream < |s.pending| && !TimelyHeader(s, item)
    ensures Election(s.pending).Some? && SomeRefuses(s)
  {
    assert !Opens(s.writers[item.stream], s.configs[item.stream]);
  }

  /** With every packet in place there is a start, and some stream cannot be opened. */
  ghost predicate CannotOpen(s: Core, items: seq<Item>)
    requires s.Shaped()
  {
    var t := InsertedAll(s, items);
    Election(t.pending).Some? && SomeRefuses(t)
  }

  /** The outcome is the batch outcome exactly if no header comes too late, or the files cannot be opened anyway. */
  lemma OutcomeExactly(s: Core, items: seq<Item>)
    requires Blank(s) && Ordered(items)
    requires forall a :: 0 <= a < |items| ==> items[a].stream < |s.pending|
    requires !Overflowed(ProcessedAll(s, items))
    ensures OutcomeOf(Drained(ProcessedAll(s, items))) == BatchOutcome(s, items) <==>
            (Timely(s, items) || CannotOpen(s, items))
  {
    hide Settled, Inserted, Election, Timely, SomeRefuses;
    var t, w := ProcessedAll(s, items), InsertedAll(s, items);
    InsertedAllKeys(s, items);
    DrainSettled(w);
    if Timely(s, items) {
      StreamingIsBatch(s, items);
      EquivalentOutcomes(t, Settled(w));
    } else {
      UntimelyFails(s, items);
      FailedOutcome(t);
      OpenFailsExactly(w);
      CloseKeeps(Drained(w), 0);
    }
  }

  // ---- only what each stream delivered matters

  /** The packets of one stream, in order. */
  ghost function Of(items: seq<Item>, i: nat): seq<Item> {
    if |items| == 0 then []
    else
      var rest, last := Of(items[..|items| - 1], i), items[|items| - 1];
      if last.stream == i then rest + [last] else rest
  }

  /** What one stream's packets make of its slots. */
  datatype Slot = Slot(pending: map<nat, Packet>, config: StreamConfig, repeated: set<Packet>)

  ghost function SlotOf(s: Core, i: nat): Slot
    requires s.Shaped() && i < |s.pending|
  {
    Slot(s.pending[i], s.configs[i], s.repeated[i])
  }

  ghost function Fed(x: Slot, item: Item): Slot {
    if item.packet.cts in x.pending then x.(repeated := x.repeated + {item.packet})
    else x.(pending := Put(x.pending, item.packet),
            config := if item.header then x.config.(header := true) else x.config)
  }

  ghost function FedAll(x: Slot, items: seq<Item>): Slot {
    if |items| == 0 then x else Fed(FedAll(x, items[..|items| - 1]), items[|items| - 1])
  }

  lemma InsertedSlot(s: Core, item: Item, i: nat)
    requires s.Shaped() && i < |s.pending|
    ensures SlotOf(Inserted(s, item), i) == if item.stream == i then Fed(SlotOf(s, i), item) else SlotOf(s, i)
    ensures var t := Inserted(s, item);
            t == s.(pending := t.pending, configs := t.configs, repeated := t.repeated)
  {
  }

  lemma FedSnoc(x: Slot, items: seq<Item>, item: Item)
    ensures FedAll(x, items + [item]) == Fed(FedAll(x, items), item)
  {
    assert (items + [item])[..|items|] == items;
  }

  lemma {:induction false} SlotsByStream(s: Core, items: seq<Item>, i: nat)
    requires s.Shaped() && i < |s.pending|
    ensures SlotOf(InsertedAll(s, items), i) == FedAll(SlotOf(s, i), Of(items, i))
    ensures var t := InsertedAll(s, items);
            t == s.(pending := t.pending, configs := t.configs, repeated := t.repeated)
  {
    hide Inserted;
    if |items| > 0 {
      var init, last := items[..|items| - 1], items[|items| - 1];
      SlotsByStream(s, init, i);
      InsertedSlot(InsertedAll(s, init), last, i);
      FedSnoc(SlotOf(s, i), Of(init, i), last);
    }
  }

  ghost predicate SameStreams(x: seq<Item>, y: seq<Item>) {
    forall i: nat :: Of(x, i) == Of(y, i)
  }

  lemma BatchByStream(s: Core, x: seq<Item>, y: seq<Item>)
    requires s.Shaped() && |s.pending| > 0 && SameStreams(x, y)
    ensures InsertedAll(s, x) == InsertedAll(s, y)
  {
    hide InsertedAll, FedAll, Of;
    var t, u := InsertedAll(s, x), InsertedAll(s, y);
    forall i | 0 <= i < |s.pending|
      ensures t.pending[i] == u.pending[i] && t.configs[i] == u.configs[i] && t.repeated[i] == u.repeated[i]
    {
      SlotsByStream(s, x, i);
      SlotsByStream(s, y, i);
      assert SlotOf(t, i) == SlotOf(u, i);
    }
    SlotsByStream(s, x, 0);
    SlotsByStream(s, y, 0);
    assert t.pending == u.pending && t.configs == u.configs && t.repeated == u.repeated;
  }

  // ---- the queue between producers and worker

  /** What the producers offered before the stop, for streams that are recorded. */
  ghost function Offered(steps: seq<Step>, streams: nat): seq<Item> {
    if |steps| == 0 then []
    else
      var rest := Offered(steps[..|steps| - 1], streams);
      match steps[|steps| - 1]
      case Enqueue(item) => if HasStop(steps[..|steps| - 1]) || item.stream >= streams then rest else rest + [item]
      case _ => rest
  }

  ghost predicate HasStop(steps: seq<Step>) {
    |steps| > 0 && (HasStop(steps[..|steps| - 1]) || steps[|steps| - 1].Stop?)
  }

  ghost function After(s: Core, steps: seq<Step>): (r: Recorder)
    requires s.Shaped()
    ensures r.core.Shaped()
  {
    if |steps| == 0 then Recorder(s, [], true, false, None)
    else Stepped(After(s, steps[..|steps| - 1]), steps[|steps| - 1])
  }

  /** The worker takes packets first in, first out, and loses none: what it has processed and what is still queued
      amount to everything offered. */
  ghost predicate InStep(s: Core, r: Recorder, steps: seq<Step>)
    requires s.Shaped() && r.core.Shaped()
  {
    var all := ProcessedAll(s, Offered(steps, |s.pending|));
    if r.running then
      && |r.core.pending| == |s.pending| && r.outcome == Failure(r.core.error)
      && r.stopping == HasStop(steps)
      && (r.core.error != Some(QueueOverflow) ==> ProcessedAll(r.core, r.queue) == all)
    else
      && r.outcome.Some? && (r.outcome.value.success ==> r.outcome.value.error.None?)
      && (r.outcome.value.error != Some(QueueOverflow) ==>
            && r.outcome.value == OutcomeOf(Drained(all)) && r.core == ClosedFrom(Drained(all), 0)
            && (all.error.None? ==> HasStop(steps)))
  }

  lemma ProcessedSnoc(s: Core, items: seq<Item>, item: Item)
    requires s.Shaped()
    ensures ProcessedAll(s, items + [item]) == Processed(ProcessedAll(s, items), item)
  {
    assert (items + [item])[..|items|] == items;
  }

  lemma {:induction false} ProcessedFront(s: Core, items: seq<Item>)
    requires s.Shaped() && |items| > 0
    ensures ProcessedAll(Processed(s, items[0]), items[1..]) == ProcessedAll(s, items)
    decreases |items|
  {
    hide Processed;
    var n := |items| - 1;
    if n == 0 {
      assert items == [items[0]] && items[..0] == [];
      assert ProcessedAll(s, items[..0]) == s;
    } else {
      ProcessedFront(s, items[..n]);
      assert items[..n][1..] == items[1..][..n - 1];
      assert items[1..][|items[1..]| - 1] == items[n];
    }
  }

  lemma {:induction false} FailedStays(s: Core, items: seq<Item>)
    requires s.Shaped() && s.error.Some?
    ensures ProcessedAll(s, items) == s
  {
    if |items| > 0 {
      FailedStays(s, items[..|items| - 1]);
    }
  }

  lemma {:induction false} RunInStep(s: Core, steps: seq<Step>)
    requires Blank(s)
    ensures InStep(s, After(s, steps), steps)
  {
    hide Processed, Drained, ClosedFrom, OutcomeOf;
    if |steps| > 0 {
      var init, step := steps[..|steps| - 1], steps[|steps| - 1];
      RunInStep(s, init);
      match step
      case Enqueue(item) => EnqueueInStep(s, After(s, init), init, item, steps);
      case Work => WorkInStep(s, After(s, init), init, steps);
      case Stop =>
    } else {
      assert ProcessedAll(s, []) == s;
    }
  }

  lemma EnqueueInStep(s: Core, r: Recorder, init: seq<Step>, item: Item, steps: seq<Step>)
    requires s.Shaped() && r.core.Shaped() && InStep(s, r, init)
    requires |steps| > 0 && steps[..|steps| - 1] == init && steps[|steps| - 1] == Enqueue(item)
    ensures InStep(s, Enqueued(r, item), steps)
  {
    hide Drained, ClosedFrom, OutcomeOf, Settled, Inserted, Total;
    var offered := Offered(init, |s.pending|);
    ProcessedSnoc(s, offered, item);
    ProcessedSnoc(r.core, r.queue, item);
    if r.running && r.core.error.Some? {
      FailedStays(r.core, r.queue);
    }
  }

  lemma WorkInStep(s: Core, r: Recorder, init: seq<Step>, steps: seq<Step>)
    requires s.Shaped() && r.core.Shaped() && InStep(s, r, init)
    requires |steps| > 0 && steps[..|steps| - 1] == init && steps[|steps| - 1] == Work
    ensures InStep(s, Worked(r), steps)
  {
    hide Drained, Processed, Settled;
    if r.running {
      if r.core.error.Some? {
        FailedStays(r.core, r.queue);
        FailedOutcome(r.core);
      } else if |r.queue| > 0 {
        ProcessedFront(r.core, r.queue);
        NoQueueOverflow(r.core, r.queue[0]);
      } else {
        assert ProcessedAll(r.core, r.queue) == r.core;
      }
    }
  }

  lemma NoQueueOverflow(s: Core, item: Item)
    requires s.Shaped() && s.error.None?
    ensures Processed(s, item).error != Some(QueueOverflow)
  {
    hide Flushed, Elected, Inserted;
    InsertKeepsError(s, item);
    var t := Inserted(s, item);
    if !t.started {
      if Election(t.pending).Some? { ElectedStarts(t); } else { NoElection(t); }
    }
    var e := if t.started then t else Elected(t);
    if e.error.None? {
      FlushKeepsStart(e);
    }
  }

  /** The recorder has finished, and its queue never overflowed. */
  ghost predicate Completed(r: Recorder) {
    !r.running && r.outcome.Some? && r.outcome.value.error != Some(QueueOverflow)
  }

  /** Schedule independence. Two complete recordings of the same per-stream packet sequences, each strictly
      increasing in CTS, end with the same files, packet by packet, and the same outcome, however producers, worker
      and streams were interleaved, unless a bound overflowed or a header came too late. */
  lemma ScheduleIndependence(s: Core, x: seq<Step>, y: seq<Step>)
    requires Blank(s)
    requires var a, b := Offered(x, |s.pending|), Offered(y, |s.pending|);
             && SameStreams(a, b) && Ordered(a) && Ordered(b) && Timely(s, a) && Timely(s, b)
             && !Overflowed(ProcessedAll(s, a)) && !Overflowed(ProcessedAll(s, b))
    requires Completed(After(s, x)) && Completed(After(s, y))
    ensures After(s, x).outcome == After(s, y).outcome == Some(BatchOutcome(s, Offered(x, |s.pending|)))
    ensures After(s, x).core.writers == After(s, y).core.writers
  {
    hide ProcessedAll, InsertedAll, Drained, OutcomeOf, Timely, Ordered, After, Offered, ClosedFrom;
    CompletedRun(s, x);
    CompletedRun(s, y);
    TimelyFiles(s, x);
    TimelyFiles(s, y);
    BatchByStream(s, Offered(x, |s.pending|), Offered(y, |s.pending|));
  }

  /** The files of a completed recording are those of the batch. */
  lemma TimelyFiles(s: Core, x: seq<Step>)
    requires Blank(s) && Completed(After(s, x))
    requires var a := Offered(x, |s.pending|); Ordered(a) && Timely(s, a) && !Overflowed(ProcessedAll(s, a))
    ensures After(s, x).core.writers == ClosedFrom(Drained(InsertedAll(s, Offered(x, |s.pending|))), 0).writers
  {
    hide ProcessedAll, InsertedAll, Drained, OutcomeOf, Timely, Ordered, After, Offered, ClosedFrom, Settled;
    var a := Offered(x, |s.pending|);
    RunInStep(s, x);
    OfferedIsLocal(x, |s.pending|);
    StreamingIsBatch(s, a);
    InsertedAllKeys(s, a);
    EquivalentOutcomes(ProcessedAll(s, a), Settled(InsertedAll(s, a)));
    DrainSettled(InsertedAll(s, a));
  }

  /** A completed recording: its outcome is the batch outcome exactly if no header came too late or the files cannot
      be opened anyway. */
  lemma CompletedRun(s: Core, x: seq<Step>)
    requires Blank(s) && Ordered(Offered(x, |s.pending|)) && !Overflowed(ProcessedAll(s, Offered(x, |s.pending|)))
    requires Completed(After(s, x))
    ensures After(s, x).outcome == Some(BatchOutcome(s, Offered(x, |s.pending|))) <==>
            (Timely(s, Offered(x, |s.pending|)) || CannotOpen(s, Offered(x, |s.pending|)))
  {
    hide ProcessedAll, Drained, OutcomeOf, Timely, Ordered, CannotOpen, InsertedAll, ClosedFrom;
    RunInStep(s, x);
    OfferedIsLocal(x, |s.pending|);
    OutcomeExactly(s, Offered(x, |s.pending|));
  }

  lemma {:induction false} OfferedIsLocal(steps: seq<Step>, streams: nat)
    ensures forall a :: 0 <= a < |Offered(steps, streams)| ==> Offered(steps, streams)[a].stream < streams
  {
    if |steps| > 0 {
      OfferedIsLocal(steps[..|steps| - 1], streams);
    }
  }
}
