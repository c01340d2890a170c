/** What the files of a live recording hold, packet by packet, in every run and whatever the order of delivery; and
    where a recording starts. */
module LiveRecorderFiles {
  import opened Packets
  import opened MkvWriter
  import opened LiveRecorderModel
  import opened LiveRecorderSchedule
  import opened LiveRecorderOutcome
  import opened LiveRecorderMeaning
  import opened LiveRecorderRounds
  import opened LiveRecorderVerdict
  import opened LiveRecorderDraft

  // ---- where a recording starts

  /** Every stream has a keyframe with this CTS. */
  ghost predicate KeyframeOfAll(pending: seq<map<nat, Packet>>, c: nat) {
    forall i :: 0 <= i < |pending| ==> c in pending[i] && pending[i][c].keyframe
  }

  /** Some stream lacks the CTS, or holds it as a frame that cannot be decoded alone. */
  ghost predicate LackedBySome(pending: seq<map<nat, Packet>>, c: nat) {
    exists i :: 0 <= i < |pending| && (c !in pending[i] || !pending[i][c].keyframe)
  }

  /** The least CTS at which every stream has a keyframe. */
  ghost predicate FirstKeyframe(pending: seq<map<nat, Packet>>, c: nat) {
    KeyframeOfAll(pending, c) && forall k: nat :: k < c ==> LackedBySome(pending, k)
  }

  lemma ElectionExactly(pending: seq<map<nat, Packet>>)
    requires |pending| > 0
    ensures Election(pending).Some? ==> FirstKeyframe(pending, Election(pending).value)
    ensures Election(pending).None? ==> forall k: nat :: LackedBySome(pending, k)
  {
    forall k: nat | k !in CommonKeys(pending) ensures LackedBySome(pending, k) {
      assert !KeyInAll(pending, k);
    }
    if Election(pending).Some? {
      assert KeyInAll(pending, Election(pending).value);
    }
  }

  /** Settling starts a recording at the first common keyframe, or finds none. */
  lemma SettleStarts(s: Core)
    requires s.Shaped() && |s.pending| > 0 && s.error.None? && !s.started
    ensures var t := Settled(s);
            if t.started || t.error.Some? then FirstKeyframe(s.pending, t.start)
            else t == s && forall k: nat :: LackedBySome(s.pending, k)
  {
    hide Flushed, Elected, FirstKeyframe, LackedBySome, Election;
    ElectionExactly(s.pending);
    if Election(s.pending).Some? {
      ElectedStarts(s);
      if Elected(s).error.None? { FlushKeepsStart(Elected(s)); }
    } else {
      NoElection(s);
    }
  }

  /** In every run: a recording starts at the first CTS at which, of what had been delivered then, every stream had a
      keyframe; and it has not started as long as there is none. */
  lemma {:induction false} RunStarts(s: Core, items: seq<Item>)
    requires Blank(s)
    ensures var r := ProcessedAll(s, items);
            && (r.started ==>
                  exists k :: 0 < k <= |items| && FirstKeyframe(InsertedAll(s, items[..k]).pending, r.start))
            && (!r.started && r.error.None? ==>
                  r == InsertedAll(s, items) && forall k: nat :: LackedBySome(r.pending, k))
  {
    hide Settled, Inserted, Total, FirstKeyframe, LackedBySome;
    var r := ProcessedAll(s, items);
    if |items| == 0 {
      NothingCommon(s);
    } else {
      var init, last := items[..|items| - 1], items[|items| - 1];
      var before := ProcessedAll(s, init);
      RunStarts(s, init);
      if before.started {
        var k :| 0 < k <= |init| && FirstKeyframe(InsertedAll(s, init[..k]).pending, before.start);
        assert items[..k] == init[..k];
        StartStays(before, last);
      } else if before.error.None? {
        InsertKeepsError(before, last);
        assert items[..|items|] == items;
        if Total(Inserted(before, last).pending) <= MAX_QUEUE_PACKETS {
          SettleStarts(Inserted(before, last));
        }
      }
    }
  }

  lemma NothingCommon(s: Core)
    requires Blank(s)
    ensures forall k: nat :: LackedBySome(s.pending, k)
  {
    forall k: nat ensures LackedBySome(s.pending, k) {
      assert k !in s.pending[0];
    }
  }

  lemma StartStays(s: Core, item: Item)
    requires s.Shaped() && s.started
    ensures Processed(s, item).started && Processed(s, item).start == s.start
  {
    hide Flushed, Total;
    InsertKeepsError(s, item);
    if s.error.None? {
      FlushKeepsStart(Inserted(s, item));
    }
  }

  // ---- what is written

  ghost predicate Came(items: seq<Item>, i: nat, p: Packet) {
    exists a :: 0 <= a < |items| && items[a].stream == i && items[a].packet == p
  }

  /** `q` is the packet `p` as it is recorded: presented at most half a tick off its distance from the start, decoded
      at its distance from the stream's packet at the start, and nothing else changed. */
  ghost predicate RecordedAs(p: Packet, q: Packet, start: nat, origin: int) {
    && (p.tbNum > 0 && p.tbDen > 0 ==> OnTime(q.pts, p.cts - start, p.tbNum, p.tbDen))
    && q.dts == p.dts - origin && q.cts == p.cts && q.keyframe == p.keyframe && q.size == p.size
    && q.tbNum == p.tbNum && q.tbDen == p.tbDen
  }

  lemma OutputRecords(p: Packet, start: nat, origin: int)
    ensures RecordedAs(p, Output(p, start, origin), start, origin)
  {
    hide RescaleQ, OnTime;
    if p.tbNum > 0 && p.tbDen > 0 {
      RescaledOnTime(p.cts - start, p.tbNum, p.tbDen);
    }
  }

  /** A file holds nothing but packets of its stream, each as it is to be recorded, and begins with a keyframe at the
      start, decoded at zero. */
  ghost predicate FileOk(file: seq<Packet>, items: seq<Item>, i: nat, start: nat, origin: int) {
    && (forall q :: q in file ==> exists p :: Came(items, i, p) && RecordedAs(p, q, start, origin))
    && (file != [] ==> file[0].keyframe && file[0].cts == start && file[0].dts == 0)
  }

  ghost predicate FilesHold(s: Core, items: seq<Item>) {
    s.Shaped() && forall i :: 0 <= i < |s.writers| ==> FileOk(s.writers[i].written, items, i, s.start, s.origins[i])
  }

  ghost predicate PendingOk(pending: seq<map<nat, Packet>>, items: seq<Item>) {
    forall i, k :: 0 <= i < |pending| && k in pending[i] ==> pending[i][k].cts == k && Came(items, i, pending[i][k])
  }

  ghost predicate FilesOk(s: Core, items: seq<Item>) {
    && FilesHold(s, items) && PendingOk(s.pending, items) && |s.pending| > 0
    && (!s.started ==> forall i :: 0 <= i < |s.writers| ==> s.writers[i].written == [])
    && (s.started && s.error.None? ==> forall i :: 0 <= i < |s.writers| ==> s.writers[i].written != [])
  }

  /** Elected and opened, but nothing written yet. */
  ghost predicate AtStart(s: Core, items: seq<Item>) {
    && s.Shaped() && PendingOk(s.pending, items) && |s.pending| > 0 && s.started && s.error.None?
    && NextRound(s.pending) == Some(s.start)
    && forall i :: 0 <= i < |s.pending| ==>
         && s.writers[i].written == [] && s.start in s.pending[i] && s.pending[i][s.start].keyframe
         && s.origins[i] == s.pending[i][s.start].dts
  }

  lemma FileGrows(file: seq<Packet>, items: seq<Item>, i: nat, start: nat, origin: int, p: Packet)
    requires FileOk(file, items, i, start, origin) && Came(items, i, p)
    requires file == [] ==> p.keyframe && p.cts == start && p.dts == origin
    ensures FileOk(file + [Output(p, start, origin)], items, i, start, origin)
  {
    hide Output, Came;
    OutputRecords(p, start, origin);
  }

  /** A round gives each file at most its packet, and takes nothing else from the maps. */
  lemma {:induction false} RoundGrows(s: Core, c: nat, i: nat)
    requires s.Shaped() && i <= |s.pending| && s.error.None?
    requires forall j :: i <= j < |s.pending| ==> c in s.pending[j]
    ensures var t := RoundFrom(s, c, i);
            && |t.pending| == |s.pending| && t.start == s.start && t.origins == s.origins && t.started == s.started
            && (forall j :: 0 <= j < |s.writers| ==>
                  || t.writers[j].written == s.writers[j].written
                  || (i <= j && t.writers[j].written ==
                               s.writers[j].written + [Output(s.pending[j][c], s.start, s.origins[j])]))
            && (t.error.None? ==> forall j :: i <= j < |s.writers| ==> t.writers[j].written != [])
            && (forall j, k :: 0 <= j < |s.pending| && k in t.pending[j] ==>
                  k in s.pending[j] && t.pending[j][k] == s.pending[j][k])
    decreases |s.pending| - i
  {
    hide Written, Output;
    if i < |s.pending| {
      var p := Output(s.pending[i][c], s.start, s.origins[i]);
      var (w, ok) := Written(s.writers[i], p);
      WrittenGrows(s.writers[i], p);
      if ok {
        RoundGrows(s.(writers := s.writers[i := w], pending := s.pending[i := s.pending[i] - {c}]), c, i + 1);
      }
    }
  }

  lemma WrittenGrows(w: Writer, p: Packet)
    ensures Written(w, p).0.written == if Written(w, p).1 then w.written + [p] else w.written
  {
  }

  lemma RoundFiles(s: Core, items: seq<Item>, c: nat)
    requires NextRound(s.pending) == Some(c)
    requires (FilesOk(s, items) && s.started && s.error.None?) || AtStart(s, items)
    ensures FilesOk(RoundFrom(s, c, 0), items) && RoundFrom(s, c, 0).started
  {
    hide RoundFrom, Output, Came, RecordedAs;
    InAllOfRound(s.pending, c);
    RoundGrows(s, c, 0);
    RoundKeepsStart(s, c, 0);
    var t := RoundFrom(s, c, 0);
    forall i | 0 <= i < |t.writers| ensures FileOk(t.writers[i].written, items, i, t.start, t.origins[i]) {
      if t.writers[i].written != s.writers[i].written {
        FileGrows(s.writers[i].written, items, i, s.start, s.origins[i], s.pending[i][c]);
      }
    }
    hide FileOk, NextRound;
  }

  lemma InAllOfRound(pending: seq<map<nat, Packet>>, c: nat)
    requires NextRound(pending) == Some(c)
    ensures forall i :: 0 <= i < |pending| ==> c in pending[i]
  {
  }

  lemma {:induction false} FlushFiles(s: Core, items: seq<Item>)
    requires s.Shaped() && s.error.None? && ((FilesOk(s, items) && s.started) || AtStart(s, items))
    ensures FilesOk(Flushed(s), items)
    decreases Backlog(s.pending)
  {
    hide RoundFrom, FilesOk, PendingOk;
    if NextRound(s.pending).Some? {
      var c := NextRound(s.pending).value;
      RoundFiles(s, items, c);
      RoundShrinks(s, c);
      if RoundFrom(s, c, 0).error.None? {
        FlushFiles(RoundFrom(s, c, 0), items);
      }
    }
  }

  /** After the election nothing is written, and what comes next is the start. */
  lemma ElectFiles(s: Core, items: seq<Item>)
    requires FilesOk(s, items) && !s.started && s.error.None?
    ensures var e := Elected(s); if e.started then AtStart(e, items) else FilesOk(e, items)
    ensures Elected(s).started ==> Elected(s).error.None?
  {
    hide Came, RecordedAs;
    if Election(s.pending).None? {
      NoElection(s);
    } else {
      var start := Election(s.pending).value;
      ElectionExactly(s.pending);
      ElectedStarts(s);
      OpenFailsExactly(s);
      TrimmedHasStart(s, start);
      var u := Trimmed(s, start);
      OpenWritesNothing(u, start, 0);
      if !SomeRefuses(s) {
        OpenedExactly(u, start, 0);
        StartIsNext(s.pending, start);
      }
    }
  }

  lemma StartIsNext(pending: seq<map<nat, Packet>>, start: nat)
    requires |pending| > 0 && KeyframeOfAll(pending, start)
    ensures NextRound(FromStart(pending, start)) == Some(start)
  {
    var n := FromStart(pending, start);
    assert start in n[0];
    LeastIs(n[0].Keys, start);
  }

  lemma SettleFiles(s: Core, items: seq<Item>)
    requires FilesOk(s, items) && s.error.None?
    ensures FilesOk(Settled(s), items)
  {
    hide Flushed, Elected, FilesOk, AtStart;
    FilesShaped(s, items);
    if s.started {
      FlushFiles(s, items);
    } else {
      ElectFiles(s, items);
      if Elected(s).started { FlushFiles(Elected(s), items); }
    }
  }

  lemma FilesShaped(s: Core, items: seq<Item>)
    requires FilesOk(s, items)
    ensures s.Shaped()
  {
  }

  lemma InsertFiles(s: Core, items: seq<Item>, item: Item)
    requires FilesOk(s, items) && item in items
    ensures FilesOk(Inserted(s, item), items)
  {
    hide FileOk;
    assert Came(items, item.stream, item.packet);
    hide Came;
  }

  lemma FailKeepsFiles(s: Core, items: seq<Item>, reason: Reason)
    requires FilesOk(s, items)
    ensures FilesOk(s.(error := Some(reason)), items)
  {
    hide FileOk, PendingOk;
  }

  lemma ProcessFiles(s: Core, items: seq<Item>, item: Item)
    requires FilesOk(s, items) && item in items
    ensures FilesOk(Processed(s, item), items)
  {
    hide FilesOk, Inserted, Settled, Total;
    FilesShaped(s, items);
    InsertFiles(s, items, item);
    InsertKeepsError(s, item);
    if s.error.None? {
      if Total(Inserted(s, item).pending) > MAX_QUEUE_PACKETS {
        FailKeepsFiles(Inserted(s, item), items, PendingOverflow);
      } else {
        SettleFiles(Inserted(s, item), items);
      }
    }
  }

  lemma DrainFiles(s: Core, items: seq<Item>)
    requires FilesOk(s, items)
    ensures FilesHold(ClosedFrom(Drained(s), 0), items)
  {
    hide FileOk, Settled, ClosedFrom;
    if s.error.None? {
      SettleFiles(s, items);
    }
    var t := Drained(s);
    CloseKeeps(t, 0);
    ClosedKeepsLists(t, 0);
    ClosedKeepsWritten(t, 0);
  }

  // ---- whole runs

  lemma MoreCame(s: Core, items: seq<Item>, more: seq<Item>)
    requires FilesHold(s, items) && forall x :: x in items ==> x in more
    ensures FilesHold(s, more)
    ensures PendingOk(s.pending, items) ==> PendingOk(s.pending, more)
  {
    hide RecordedAs;
    forall i: nat, p | Came(items, i, p) ensures Came(more, i, p) {
      var a :| 0 <= a < |items| && items[a].stream == i && items[a].packet == p;
      assert items[a] in more;
    }
    hide Came;
  }

  ghost predicate RecorderOk(r: Recorder, items: seq<Item>) {
    && (if r.running then FilesOk(r.core, items) else FilesHold(r.core, items))
    && forall x :: x in r.queue ==> x in items
  }

  lemma WorkFiles(r: Recorder, items: seq<Item>)
    requires r.core.Shaped() && RecorderOk(r, items)
    ensures RecorderOk(Worked(r), items)
  {
    hide FilesOk, FilesHold, Processed, Drained, ClosedFrom, OutcomeOf;
    if r.running {
      if r.core.error.Some? || (|r.queue| == 0 && r.stopping) {
        DrainFiles(r.core, items);
      } else if |r.queue| > 0 {
        ProcessFiles(r.core, items, r.queue[0]);
      }
    }
  }

  lemma MoreFiles(s: Core, items: seq<Item>, more: seq<Item>)
    requires FilesOk(s, items) && forall x :: x in items ==> x in more
    ensures FilesOk(s, more)
  {
    hide FilesHold, PendingOk;
    MoreCame(s, items, more) by { FilesInside(s, items); }
    FilesInside(s, items);
  }

  lemma FilesInside(s: Core, items: seq<Item>)
    requires FilesOk(s, items)
    ensures FilesHold(s, items) && PendingOk(s.pending, items)
  {
  }

  lemma EnqueueFiles(r: Recorder, items: seq<Item>, item: Item, more: seq<Item>)
    requires r.core.Shaped() && RecorderOk(r, items) && (more == items || more == items + [item])
    requires Enqueued(r, item).queue != r.queue ==> more == items + [item]
    ensures RecorderOk(Enqueued(r, item), more)
  {
    hide FilesHold, PendingOk, FilesOk;
    if r.running {
      MoreFiles(r.core, items, more);
      FailKeepsFiles(r.core, more, QueueOverflow);
    } else {
      MoreCame(r.core, items, more);
    }
  }

  lemma NothingWritten(s: Core)
    requires Ready(s)
    ensures FilesOk(s, [])
  {
  }

  /** In every run, finished or not, failed or not, and whatever was delivered in whatever order: every file holds
      nothing but packets its stream offered, each as it is to be recorded, and begins with a keyframe at the start. */
  lemma {:induction false} RunFiles(s: Core, steps: seq<Step>)
    requires Ready(s)
    ensures RecorderOk(After(s, steps), Offered(steps, |s.pending|))
    ensures FilesHold(After(s, steps).core, Offered(steps, |s.pending|))
    ensures After(s, steps).running ==>
              |After(s, steps).core.pending| == |s.pending| && After(s, steps).stopping == HasStop(steps)
  {
    hide RecorderOk, Worked, FilesHold, Unused;
    if |steps| == 0 {
      NothingWritten(s);
      StartsOk(s);
    } else {
      var init, step := steps[..|steps| - 1], steps[|steps| - 1];
      RunFiles(s, init);
      RunInStep(s, init);
      RunInStep(s, steps);
      var r := After(s, init);
      match step
      case Enqueue(item) => EnqueueFiles(r, Offered(init, |s.pending|), item, Offered(steps, |s.pending|));
      case Work => WorkFiles(r, Offered(init, |s.pending|));
      case Stop => StopFiles(r, Offered(init, |s.pending|));
    }
    HoldsAnyway(After(s, steps), Offered(steps, |s.pending|));
  }

  lemma StartsOk(s: Core)
    requires Ready(s) && FilesOk(s, [])
    ensures RecorderOk(Recorder(s, [], true, false, None), [])
  {
  }

  lemma StopFiles(r: Recorder, items: seq<Item>)
    requires RecorderOk(r, items)
    ensures RecorderOk(r.(stopping := true), items)
  {
  }

  lemma HoldsAnyway(r: Recorder, items: seq<Item>)
    requires RecorderOk(r, items)
    ensures FilesHold(r.core, items)
  {
  }
}
