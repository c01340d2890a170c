/** The outcome of a live recording in closed form: which CTS values the files hold, and exactly when which failure ends
    it, in terms of what each stream delivered. */
module LiveRecorderVerdict {
  import opened Packets
  import opened MkvWriter
  import opened LiveRecorderModel
  import opened LiveRecorderSchedule
  import opened LiveRecorderOutcome
  import opened LiveRecorderMeaning
  import opened LiveRecorderRounds

  // ---- when a file takes its plan

  /** The DTS of a packet in the ticks of the file, counted from the stream's packet at the start. */
  ghost function Ticks(m: map<nat, Packet>, start: nat, tick: Timebase, c: nat): int
    requires start in m && c in m && Writable(m[c])
  {
    RescaleQ(m[c].dts - m[start].dts, m[c].tbNum, m[c].tbDen, tick.num, tick.den)
  }

  /** Along the committed CTS values, the DTS in the ticks of the file never decreases. */
  ghost predicate InFileOrder(m: map<nat, Packet>, list: seq<nat>, start: nat, tick: Timebase)
    requires start in m && forall c :: c in list ==> c in m && Writable(m[c])
  {
    forall k :: 0 < k < |list| ==> Ticks(m, start, tick, list[k - 1]) <= Ticks(m, start, tick, list[k])
  }

  /** Every packet is usable, the library takes them all, and their DTS values stay in order. */
  ghost predicate Recordable(w: Writer, m: map<nat, Packet>, list: seq<nat>, start: nat)
    requires start in m && forall c :: c in list ==> c in m
  {
    (forall c :: c in list ==> Writable(m[c])) && |list| < w.budget && InFileOrder(m, list, start, w.tick)
  }

  lemma {:induction false} TakenIsWritable(w: Writer, packets: seq<Packet>)
    requires WrittenAll(w, packets).1
    ensures forall p :: p in packets ==> Writable(p)
  {
    if |packets| > 0 {
      Snoc(packets);
      TakenIsWritable(w, packets[..|packets| - 1]);
    }
  }

  lemma OutputMeaning(p: Packet, start: nat, origin: int)
    ensures var o := Output(p, start, origin);
            o.dts == p.dts - origin && o.cts == p.cts && (Writable(o) <==> Writable(p))
            && o.tbNum == p.tbNum && o.tbDen == p.tbDen
  {
  }

  lemma FirstOutput(p: Packet, origin: int)
    requires Writable(p) && origin == p.dts
    ensures var o := Output(p, p.cts, origin); o.pts == 0 && o.dts == 0
  {
    RescaleZero(1, NANOSECONDS, p.tbNum, p.tbDen);
  }

  /** The plan of a stream: usable like its packets, the first packet at zero, and its mux order is the file order. */
  lemma PlanOrder(w: Writer, m: map<nat, Packet>, list: seq<nat>, start: nat)
    requires w.budget > 0 && w.origin.None? && list != [] && list[0] == start
    requires forall c :: c in list ==> c in m && m[c].cts == c && Writable(m[c])
    ensures var plan := Outputs(m, list, start, m[start].dts);
            && (forall p :: p in plan ==> Writable(p))
            && (InMuxOrder(OpenedWriter(w), plan) <==> InFileOrder(m, list, start, w.tick))
  {
    hide RescaleQ, Output;
    var plan, v := Outputs(m, list, start, m[start].dts), OpenedWriter(w);
    FirstOutput(m[start], m[start].dts);
    assert start in list;
    forall k | 0 <= k < |list|
      ensures Writable(plan[k])
      ensures MuxedDts(v.Anchored(plan[0]), plan[k]) == Ticks(m, start, w.tick, list[k])
    {
      assert list[k] in list;
      OutputMeaning(m[list[k]], start, m[start].dts);
    }
    hide MuxedDts, Ticks, Writable;
  }

  lemma OpenedIsHealthy(w: Writer)
    requires Unused(w) && w.budget > 0
    ensures var v := OpenedWriter(w); Healthy(v) && v.written == [] && v.origin.None? && v.budget == w.budget - 1
  {
  }

  /** Exactly when a file takes its plan, and what it is then. */
  lemma PlanExactly(w: Writer, m: map<nat, Packet>, list: seq<nat>, start: nat)
    requires Unused(w) && w.budget > 0 && list != [] && list[0] == start
    requires forall c :: c in list ==> c in m && m[c].cts == c
    ensures var (v, ok) := WrittenAll(OpenedWriter(w), Outputs(m, list, start, m[start].dts));
            && (ok <==> Recordable(w, m, list, start))
            && (ok ==> Healthy(v) && v.written == Outputs(m, list, start, m[start].dts)
                       && v.budget + |list| + 1 == w.budget && CtsOf(v.written) == list)
  {
    hide WrittenAll, InMuxOrder, Healthy, Unused, InFileOrder, Output;
    OpenedIsHealthy(w);
    var plan := Outputs(m, list, start, m[start].dts);
    assert start in list;
    forall k | 0 <= k < |list| ensures plan[k].cts == list[k] && (Writable(plan[k]) <==> Writable(m[list[k]])) {
      assert list[k] in list;
      OutputMeaning(m[list[k]], start, m[start].dts);
    }
    assert CtsOf(plan) == list;
    if forall c :: c in list ==> Writable(m[c]) {
      PlanOrder(w, m, list, start);
      WriteExactly(OpenedWriter(w), plan);
      FreshContinues(OpenedWriter(w), plan);
    } else {
      var k :| 0 <= k < |list| && !Writable(m[list[k]]);
      assert plan[k] in plan;
      if WrittenAll(OpenedWriter(w), plan).1 {
        TakenIsWritable(OpenedWriter(w), plan);
      }
    }
  }

  // ---- the outcome in closed form

  /** The library takes the trailer, and the file spans exactly the range. */
  ghost predicate Closes(w: Writer, start: nat, end: nat) {
    w.budget > 0 && w.first == Some(start) && w.last == end
  }

  lemma ClosesExactly(w: Writer, start: nat, end: nat)
    requires Healthy(w) && w.written != []
    ensures var result := Closed(w).1;
            Closes(w, start, end) <==> result.success && result.first == start && result.last == end
  {
  }

  /** The files close in order exactly if each of them does. */
  lemma {:induction false} CloseExactly(s: Core, i: nat)
    requires s.Shaped() && i <= |s.writers| && s.error.None?
    requires forall j :: i <= j < |s.writers| ==> Healthy(s.writers[j]) && s.writers[j].written != []
    ensures ClosedFrom(s, i).error ==
            if forall j :: i <= j < |s.writers| ==> Closes(s.writers[j], s.start, s.end) then None
            else Some(LiveRecorderModel.RangeMismatch)
    decreases |s.writers| - i
  {
    hide Healthy, Closed, Closes;
    if i < |s.writers| {
      ClosesExactly(s.writers[i], s.start, s.end);
      var t := s.(writers := s.writers[i := Closed(s.writers[i]).0]);
      assert forall j :: i < j < |s.writers| ==> t.writers[j] == s.writers[j];
      if Closes(s.writers[i], s.start, s.end) {
        CloseExactly(t, i + 1);
      } else {
        CloseKeeps(t.(error := Some(LiveRecorderModel.RangeMismatch)), i + 1);
      }
    }
  }

  lemma {:induction false} ClosedKeepsWritten(s: Core, i: nat)
    requires s.Shaped() && i <= |s.writers|
    ensures var t := ClosedFrom(s, i);
            && |t.writers| == |s.writers|
            && forall j :: 0 <= j < |s.writers| ==> t.writers[j].written == s.writers[j].written
    decreases |s.writers| - i
  {
    if i < |s.writers| {
      if s.error.Some? {
        ClosedKeepsWritten(s.(writers := s.writers[i := s.writers[i].(isOpen := false)]), i + 1);
      } else {
        var (w, result) := Closed(s.writers[i]);
        var t := s.(writers := s.writers[i := w]);
        ClosedKeepsWritten(if !result.success || result.first != s.start || result.last != s.end
                           then t.(error := Some(LiveRecorderModel.RangeMismatch)) else t, i + 1);
      }
    }
  }

  /** Everything is written exactly if nothing is left over: the streams agree from the start on. */
  lemma LeftoversExactly(m: seq<map<nat, Packet>>, start: nat, rest: seq<map<nat, Packet>>)
    requires |m| > 0 && InAll(m, start) && |rest| == |m|
    requires forall i :: 0 <= i < |m| ==> rest[i].Keys == Unlisted(AtOrAbove(m[i], start), Committed(m, start))
    ensures AllEmpty(rest) <==> SameFrom(m, start)
  {
    hide Committed;
    CommittedIsShared(m, start);
    var list := Committed(m, start);
    if SameFrom(m, start) {
      forall i | 0 <= i < |m| ensures rest[i] == map[] {
        forall k | k in AtOrAbove(m[i], start) ensures k in list {
          assert SharedFrom(m, start, k);
        }
        assert rest[i].Keys == {};
      }
    }
    if AllEmpty(rest) {
      forall i, k: nat | 0 <= i < |m| && k >= start ensures k in m[i] <==> k in m[0] {
        AllListed(m, start, rest, i, k);
        AllListed(m, start, rest, 0, k);
      }
    }
  }

  lemma AllListed(m: seq<map<nat, Packet>>, start: nat, rest: seq<map<nat, Packet>>, i: nat, k: nat)
    requires i < |m| && k >= start && InAll(m, start) && |rest| == |m| && AllEmpty(rest)
    requires rest[i].Keys == Unlisted(AtOrAbove(m[i], start), Committed(m, start))
    ensures k in m[i] ==> InAll(m, k)
  {
    hide Committed;
    CommittedIsShared(m, start);
    if k in m[i] {
      assert k in AtOrAbove(m[i], start) && k !in rest[i].Keys;
      assert SharedFrom(m, start, k);
    }
  }

  /** Every stream can be recorded over the committed CTS values. */
  ghost predicate AllRecordable(s: Core, start: nat)
    requires s.Shaped() && InAll(s.pending, start) && Covers(s.pending, Committed(s.pending, start))
  {
    forall i :: 0 <= i < |s.pending| ==>
      Recordable(s.writers[i], s.pending[i], Committed(s.pending, start), start)
  }

  /** One more library call per file: the trailer. */
  ghost predicate AllClose(s: Core, start: nat)
    requires s.Shaped()
  {
    forall i :: 0 <= i < |s.pending| ==> s.writers[i].budget > |Committed(s.pending, start)| + 1
  }

  lemma ElectedInAll(m: seq<map<nat, Packet>>, start: nat)
    requires Election(m) == Some(start)
    ensures |m| > 0 && InAll(m, start) && Covers(m, Committed(m, start))
  {
    assert start in CommonKeys(m) && KeyInAll(m, start);
    CommittedCovers(m, start);
  }

  /** The batch after its only flush: what every file holds, or the first refusal. */
  lemma PlanFlushed(s: Core, start: nat)
    requires InPlace(s) && Election(s.pending) == Some(start) && !SomeRefuses(s)
    ensures InAll(s.pending, start) && Covers(s.pending, Committed(s.pending, start))
    ensures var t, list := Settled(s), Committed(s.pending, start);
            && t.error == (if AllRecordable(s, start) then None else Some(WriteFailed))
            && (t.error.None? ==>
                  && list != [] && t.started && t.start == start && t.count == |list| && t.end == list[|list| - 1]
                  && (forall i :: 0 <= i < |s.pending| ==>
                        && t.pending[i].Keys == Unlisted(AtOrAbove(s.pending[i], start), list)
                        && Healthy(t.writers[i]) && t.writers[i].written == Planned(s, start, i)
                        && CtsOf(t.writers[i].written) == list
                        && t.writers[i].budget + |list| + 1 == s.writers[i].budget))
  {
    hide Flushed, Elected, Election, Recordable, Healthy, WrittenAll, Output, InAll, Committed, Rounds, Unused;
    ElectedInAll(s.pending, start);
    CommittedIsShared(s.pending, start);
    ElectedExactly(s, start);
    var e, list := Elected(s), Committed(s.pending, start);
    FlushExactly(e);
    SamePlan(s, start, e, 0);
    var t := Flushed(e);
    forall i | 0 <= i < |s.pending|
      ensures Taken(e, list, i).1 <==> Recordable(s.writers[i], s.pending[i], list, start)
      ensures Taken(e, list, i).1 ==>
                && Healthy(Taken(e, list, i).0) && Taken(e, list, i).0.written == Planned(s, start, i)
                && CtsOf(Taken(e, list, i).0.written) == list
                && Taken(e, list, i).0.budget + |list| + 1 == s.writers[i].budget
    {
      SamePlan(s, start, e, i);
      assert forall c :: c in list ==> c in s.pending[i] && s.pending[i][c].cts == c;
      PlanExactly(s.writers[i], s.pending[i], list, start);
    }
    hide Taken;
  }

  /** The outcome of a recorder with every packet in place, in closed form: the first obstacle in this order, or
      success over the committed CTS values. */
  ghost function Verdict(s: Core): Outcome
    requires s.Shaped() && |s.pending| > 0
  {
    match Election(s.pending)
    case None => Reported(NoCommonStart)
    case Some(start) =>
      ElectedInAll(s.pending, start);
      var list := Committed(s.pending, start);
      CommittedIsShared(s.pending, start);
      if SomeRefuses(s) then Reported(OpenFailed)
      else if !AllRecordable(s, start) then Reported(WriteFailed)
      else if !SameFrom(s.pending, start) then Reported(UnresolvedPrefix)
      else
        Outcome(AllClose(s, start), start, list[|list| - 1], |list|,
                if AllClose(s, start) then None else Some(LiveRecorderModel.RangeMismatch))
  }

  /** The files hold exactly the committed CTS values, each packet with rebased timestamps. */
  ghost predicate HoldsPlan(s: Core, start: nat, writers: seq<Writer>)
    requires s.Shaped() && InAll(s.pending, start) && Covers(s.pending, Committed(s.pending, start))
  {
    && |writers| == |s.pending|
    && forall i :: 0 <= i < |writers| ==>
         writers[i].written == Planned(s, start, i) && CtsOf(writers[i].written) == Committed(s.pending, start)
  }

  /** One settled batch ends with the verdict, and its files hold the plan unless one refused it. */
  lemma BatchExactly(s: Core)
    requires InPlace(s)
    ensures s.Shaped() && s.error.None? && OutcomeOf(Drained(s)) == Verdict(s)
    ensures var t := Drained(s);
            Verdict(s).error !in {Some(NoCommonStart), Some(OpenFailed), Some(WriteFailed)} ==>
              && Election(s.pending).Some? && InAll(s.pending, Election(s.pending).value)
              && Covers(s.pending, Committed(s.pending, Election(s.pending).value))
              && HoldsPlan(s, Election(s.pending).value, ClosedFrom(t, 0).writers)
  {
    hide Settled, Healthy, AllRecordable, SameFrom, SomeRefuses, Committed, AllClose, Election;
    if Election(s.pending).None? {
      NoStart(s);
    } else {
      var start := Election(s.pending).value;
      if SomeRefuses(s) {
        OpenFailsExactly(s);
      } else {
        PlanFlushed(s, start);
        ClosedKeepsWritten(Drained(s), 0);
        if AllRecordable(s, start) {
          LeftoversExactly(s.pending, start, Settled(s).pending);
          PlanCloses(s, start);
          CloseKeeps(Drained(s), 0);
        }
      }
    }
  }

  lemma NoStart(s: Core)
    requires InPlace(s) && Election(s.pending).None?
    ensures Settled(s) == s && !s.started && s.error.None?
  {
    NoElection(s);
  }

  lemma PlanCloses(s: Core, start: nat)
    requires InPlace(s) && Election(s.pending) == Some(start) && !SomeRefuses(s)
    requires s.Shaped() && s.error.None? && Settled(s).error.None?
    ensures var t := Settled(s);
            && InAll(s.pending, start) && t.start == start && Committed(s.pending, start) != []
            && ClosedFrom(t, 0).error ==
               (if AllClose(s, start) then None else Some(LiveRecorderModel.RangeMismatch))
            && t.started && t.end >= t.start
  {
    hide Settled, SomeRefuses, Committed, Election, Healthy, AllRecordable, Planned;
    PlanFlushed(s, start);
    CommittedIsShared(s.pending, start);
    var t, list := Settled(s), Committed(s.pending, start);
    assert list[|list| - 1] in list;
    forall i | 0 <= i < |t.writers|
      ensures t.writers[i].first == Some(t.start) && t.writers[i].last == t.end && t.writers[i].written != []
    {
      SpansOfList(t.writers[i], list);
      SpanOfIncreasing(list, t.writers[i].first.value, t.writers[i].last);
    }
    CloseExactly(t, 0);
  }

  lemma SpanOfIncreasing(list: seq<nat>, first: nat, last: nat)
    requires Increasing(list) && first in list && last in list && forall c :: c in list ==> first <= c <= last
    ensures first == list[0] && last == list[|list| - 1]
  {
    assert list[0] in list && list[|list| - 1] in list;
  }

  // ---- every completed recording

  lemma {:induction false} InsertedInPlace(s: Core, items: seq<Item>)
    requires Ready(s) && forall a :: 0 <= a < |items| ==> items[a].stream < |s.pending|
    ensures InPlace(InsertedAll(s, items))
  {
    hide Inserted;
    if |items| > 0 {
      var init := items[..|items| - 1];
      assert forall a :: 0 <= a < |init| ==> init[a] == items[a];
      InsertedInPlace(s, init);
      InsertSound(InsertedAll(s, init), items[|items| - 1], []);
      InsertKeepsError(InsertedAll(s, init), items[|items| - 1]);
    }
  }

  lemma InsertPlaces(s: Core, item: Item, p: Packet, i: nat)
    requires s.Shaped() && Fresh(s, item) && i < |s.pending|
    requires (p == item.packet && i == item.stream) || (p.cts in s.pending[i] && s.pending[i][p.cts] == p)
    ensures var t := Inserted(s, item); p.cts in t.pending[i] && t.pending[i][p.cts] == p
  {
  }

  lemma {:induction false} InPlaceHas(s: Core, items: seq<Item>, a: nat)
    requires Blank(s) && Ordered(items) && forall b :: 0 <= b < |items| ==> items[b].stream < |s.pending|
    requires a < |items|
    ensures var t, p := InsertedAll(s, items), items[a].packet;
            p.cts in t.pending[items[a].stream] && t.pending[items[a].stream][p.cts] == p
    decreases |items|
  {
    hide Inserted, Ordered, Fresh;
    var n := |items| - 1;
    var init := items[..n];
    assert forall b :: 0 <= b < n ==> init[b] == items[b];
    OrderedInit(items);
    NextIsFresh(s, items);
    if a < n {
      InPlaceHas(s, init, a);
    }
    InsertPlaces(InsertedAll(s, init), items[n], items[a].packet, items[a].stream);
  }

  /** What is in place is exactly what was offered. */
  lemma InPlaceExactly(s: Core, items: seq<Item>)
    requires Blank(s) && Ordered(items) && forall a :: 0 <= a < |items| ==> items[a].stream < |s.pending|
    ensures var t := InsertedAll(s, items);
            && (forall a :: 0 <= a < |items| ==>
                  var p := items[a].packet;
                  p.cts in t.pending[items[a].stream] && t.pending[items[a].stream][p.cts] == p)
            && (forall i, k :: 0 <= i < |t.pending| && k in t.pending[i] ==>
                  exists a :: 0 <= a < |items| && items[a].stream == i && items[a].packet.cts == k)
  {
    hide InsertedAll, Ordered;
    InsertedAllKeys(s, items);
    forall a | 0 <= a < |items|
      ensures var t, p := InsertedAll(s, items), items[a].packet;
              p.cts in t.pending[items[a].stream] && t.pending[items[a].stream][p.cts] == p
    {
      InPlaceHas(s, items, a);
    }
  }

  /** Every completed recording of streams with increasing CTS values whose bounds held. If a header came too late, the
      files failed to open. Otherwise the outcome is the verdict over what was offered, and the files hold exactly the
      shared CTS values from the elected start on, unless one of them refused its part. */
  lemma RecordingExactly(s: Core, steps: seq<Step>)
    requires Ready(s) && Completed(After(s, steps)) && Ordered(Offered(steps, |s.pending|))
    requires !Overflowed(ProcessedAll(s, Offered(steps, |s.pending|)))
    ensures var r, offered := After(s, steps), Offered(steps, |s.pending|);
            var t := InsertedAll(s, offered);
            && r.outcome == Some(if Timely(s, offered) then Verdict(t) else Reported(OpenFailed))
            && (r.outcome.value.error !in {Some(NoCommonStart), Some(OpenFailed), Some(WriteFailed)} ==>
                  && Election(t.pending).Some? && InAll(t.pending, Election(t.pending).value)
                  && Covers(t.pending, Committed(t.pending, Election(t.pending).value))
                  && HoldsPlan(t, Election(t.pending).value, r.core.writers))
  {
    hide After, Offered, ProcessedAll, InsertedAll, Timely, Drained, OutcomeOf, ClosedFrom, Verdict, HoldsPlan,
         Committed, Unused, Ordered, Election;
    var offered := Offered(steps, |s.pending|);
    RunInStep(s, steps);
    OfferedIsLocal(steps, |s.pending|);
    if Timely(s, offered) {
      CompletedRun(s, steps);
      TimelyFiles(s, steps);
      InsertedInPlace(s, offered);
      BatchExactly(InsertedAll(s, offered));
    } else {
      UntimelyFails(s, offered);
      FailedOutcome(ProcessedAll(s, offered));
    }
  }

  // ---- packets in the timebase of the file

  /** In the timebase of the file, the recording needs DTS values that do not decrease along the CTS. */
  lemma FileOrderIsDtsOrder(m: map<nat, Packet>, list: seq<nat>, start: nat, tick: Timebase)
    requires start in m && forall c :: c in list ==> c in m && Writable(m[c])
    requires forall c :: c in list ==> m[c].tbNum == tick.num && m[c].tbDen == tick.den
    ensures InFileOrder(m, list, start, tick) <==> forall k :: 0 < k < |list| ==> m[list[k - 1]].dts <= m[list[k]].dts
  {
    hide RescaleQ;
    forall k | 0 <= k < |list| ensures Ticks(m, start, tick, list[k]) == m[list[k]].dts - m[start].dts {
      assert list[k] in list;
      RescaleSame(m[list[k]].dts - m[start].dts, tick);
    }
    hide Ticks;
  }

  // ---- recordings that cannot overflow

  lemma {:induction false} TotalUpdate(pending: seq<map<nat, Packet>>, i: nat, m: map<nat, Packet>)
    requires i < |pending|
    ensures Total(pending[i := m]) + |pending[i]| == Total(pending) + |m|
  {
    var n := |pending| - 1;
    if i < n {
      assert pending[i := m][..n] == pending[..n][i := m];
      TotalUpdate(pending[..n], i, m);
    } else {
      assert pending[i := m][..n] == pending[..n];
    }
  }

  lemma {:induction false} TotalShrinks(x: seq<map<nat, Packet>>, y: seq<map<nat, Packet>>)
    requires |x| == |y| && forall i :: 0 <= i < |x| ==> x[i].Keys <= y[i].Keys
    ensures Total(x) <= Total(y)
  {
    if |x| > 0 {
      var n := |x| - 1;
      TotalShrinks(x[..n], y[..n]);
      SubsetSize(x[n].Keys, y[n].Keys);
      assert |x[n]| == |x[n].Keys| && |y[n]| == |y[n].Keys|;
    }
  }

  lemma {:induction false} SubsetSize(x: set<nat>, y: set<nat>)
    requires x <= y
    ensures |x| <= |y|
  {
    if k :| k in x {
      SubsetSize(x - {k}, y - {k});
    }
  }

  lemma InsertGrows(s: Core, item: Item)
    requires s.Shaped()
    ensures Total(Inserted(s, item).pending) <= Total(s.pending) + 1
  {
    var i := item.stream;
    if i < |s.pending| && item.packet.cts !in s.pending[i] {
      var m := Put(s.pending[i], item.packet);
      assert m.Keys == s.pending[i].Keys + {item.packet.cts};
      assert |m| == |m.Keys| == |s.pending[i].Keys| + 1;
      TotalUpdate(s.pending, i, m);
    }
  }

  lemma {:induction false} FlushShrinks(s: Core)
    requires s.Shaped() && s.error.None?
    ensures Flushed(s).error.None? ==>
              forall i :: 0 <= i < |s.pending| ==> Flushed(s).pending[i].Keys <= s.pending[i].Keys
    decreases Backlog(s.pending)
  {
    hide RoundFrom;
    if NextRound(s.pending).Some? {
      var c := NextRound(s.pending).value;
      RoundShrinks(s, c);
      if RoundFrom(s, c, 0).error.None? {
        FlushShrinks(RoundFrom(s, c, 0));
      }
    }
  }

  lemma SettleShrinks(s: Core)
    requires s.Shaped() && s.error.None?
    ensures Settled(s).error.None? ==> Total(Settled(s).pending) <= Total(s.pending)
    ensures !Overflowed(Settled(s))
  {
    hide Flushed, RoundFrom, Total;
    var e := if s.started then s else Elected(s);
    if !s.started {
      if Election(s.pending).Some? { ElectedStarts(s); } else { NoElection(s); }
    }
    if e.error.None? {
      FlushShrinks(e);
      FlushKeepsStart(e);
      TotalShrinks(e.pending, s.pending);
      if Flushed(e).error.None? { TotalShrinks(Flushed(e).pending, e.pending); }
    }
  }

  lemma {:induction false} EmptyTotal(pending: seq<map<nat, Packet>>)
    requires AllEmpty(pending)
    ensures Total(pending) == 0
  {
    if |pending| > 0 {
      EmptyTotal(pending[..|pending| - 1]);
    }
  }

  /** As many packets as the bound allows never overflow it. */
  lemma {:induction false} FewNeverOverflow(s: Core, items: seq<Item>)
    requires Blank(s) && |items| <= MAX_QUEUE_PACKETS
    ensures var t := ProcessedAll(s, items); !Overflowed(t) && (t.error.None? ==> Total(t.pending) <= |items|)
  {
    hide Settled, Inserted, Total;
    if |items| == 0 {
      EmptyTotal(s.pending);
    } else {
      var init, last := items[..|items| - 1], items[|items| - 1];
      FewNeverOverflow(s, init);
      var t := ProcessedAll(s, init);
      if t.error.None? {
        InsertGrows(t, last);
        InsertKeepsError(t, last);
        SettleShrinks(Inserted(t, last));
      }
    }
  }
}
