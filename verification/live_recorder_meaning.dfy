/** What the live recorder writes: the longest prefix of stream 0 that all streams share, in lockstep; and what
    success means for every packet it was given. */
module LiveRecorderMeaning {
  import opened Packets
  import opened MkvWriter
  import opened LiveRecorderModel
  import opened LiveRecorderSchedule
  import opened LiveRecorderOutcome

  // ---- the invariant of a recorder that has not failed

  ghost predicate Keyed(pending: seq<map<nat, Packet>>) {
    forall i, k: nat :: 0 <= i < |pending| && k in pending[i] ==> pending[i][k].cts == k
  }

  ghost predicate Unused(w: Writer) {
    w.written == [] && w.origin.None? && w.lastDts.None? && w.first.None? && w.last == 0 && w.error.None?
  }

  /** Before the start nothing is written; afterwards every file holds the same CTS list. */
  ghost predicate Lockstep(s: Core, list: seq<nat>) {
    && s.Shaped() && s.error.None? && Keyed(s.pending)
    && (!s.started ==> list == [] && s.count == 0 && forall i :: 0 <= i < |s.writers| ==> Unused(s.writers[i]))
    && (s.started ==> s.count == |list| && (list != [] ==> s.end == list[|list| - 1]))
    && (s.started && list == [] ==> |s.pending| > 0 && InAll(s.pending, s.start))
    && (s.started ==> forall i :: 0 <= i < |s.writers| ==> Healthy(s.writers[i]) && CtsOf(s.writers[i].written) == list)
  }

  /** The packet has not been dropped: it is pending or written. */
  ghost predicate Kept(s: Core, i: nat, p: Packet)
    requires s.Shaped()
  {
    i < |s.pending| &&
    (|| (p.cts in s.pending[i] && s.pending[i][p.cts] == p)
     || (s.started && Output(p, s.start, s.origins[i]) in s.writers[i].written))
  }

  ghost predicate Old(s: Core, i: nat, p: Packet)
    requires s.Shaped()
  {
    i < |s.pending| && s.started && p in s.older[i] && p.cts < s.start
  }

  /** A repeated packet came while another one with its CTS was there. */
  ghost predicate Repeated(s: Core, i: nat, p: Packet)
    requires s.Shaped()
  {
    i < |s.pending| && p in s.repeated[i] && exists q: Packet :: q.cts == p.cts && (Kept(s, i, q) || Old(s, i, q))
  }

  ghost predicate Accounted(s: Core, i: nat, p: Packet)
    requires s.Shaped()
  {
    Kept(s, i, p) || Old(s, i, p) || Repeated(s, i, p)
  }

  /** `t` still accounts for everything `s` accounts for. */
  ghost predicate Retains(s: Core, t: Core)
    requires s.Shaped() && t.Shaped()
  {
    && |t.pending| == |s.pending|
    && (forall i, p :: Kept(s, i, p) ==> Kept(t, i, p) || Old(t, i, p))
    && (forall i, p :: Old(s, i, p) ==> Old(t, i, p))
    && (forall i, p :: 0 <= i < |s.pending| && p in s.repeated[i] ==> p in t.repeated[i])
  }

  lemma RetainsAccounts(s: Core, t: Core, i: nat, p: Packet)
    requires s.Shaped() && t.Shaped() && Retains(s, t) && Accounted(s, i, p)
    ensures Accounted(t, i, p)
  {
    if Repeated(s, i, p) {
      var q: Packet :| q.cts == p.cts && (Kept(s, i, q) || Old(s, i, q));
      assert Kept(t, i, q) || Old(t, i, q);
    }
  }

  // ---- a packet arrives

  lemma InsertSound(s: Core, item: Item, list: seq<nat>)
    requires Lockstep(s, list) && item.stream < |s.pending|
    ensures Lockstep(Inserted(s, item), list)
    ensures Retains(s, Inserted(s, item))
    ensures Accounted(Inserted(s, item), item.stream, item.packet)
  {
    var t, i, p := Inserted(s, item), item.stream, item.packet;
    if p.cts in s.pending[i] {
      var q := s.pending[i][p.cts];
      assert Kept(t, i, q);
      assert p in t.repeated[i];
    }
  }

  // ---- the election

  lemma {:induction false} OpenSound(s: Core, c: nat, i: nat)
    requires s.Shaped() && i <= |s.pending| && InAll(s.pending, c) && s.error.None?
    requires forall j :: 0 <= j < i ==> Healthy(s.writers[j]) && s.writers[j].written == []
    requires forall j :: i <= j < |s.writers| ==> Unused(s.writers[j])
    ensures var t := OpenedFrom(s, c, i);
            t.error.None? ==>
              && t == s.(started := true, writers := t.writers, origins := t.origins)
              && (forall j :: 0 <= j < |t.writers| ==> Healthy(t.writers[j]) && t.writers[j].written == [])
    decreases |s.pending| - i
  {
    if i < |s.pending| && Opens(s.writers[i], s.configs[i]) {
      OpenSound(s.(writers := s.writers[i := OpenedWriter(s.writers[i])],
                   origins := s.origins[i := s.pending[i][c].dts]), c, i + 1);
    }
  }

  lemma ElectSound(s: Core)
    requires Lockstep(s, []) && !s.started && Election(s.pending).Some? && Elected(s).error.None?
    ensures Lockstep(Elected(s), []) && Elected(s).started && Elected(s).start == Election(s.pending).value
    ensures Retains(s, Elected(s))
    ensures forall i, k: nat :: 0 <= i < |s.pending| ==>
              (k in Elected(s).pending[i] <==> k in s.pending[i] && k >= Elected(s).start)
  {
    var c := Election(s.pending).value;
    TrimmedHasStart(s, c);
    var u := Trimmed(s, c);
    OpenSound(u, c, 0);
    var t := Elected(s);
    assert t.pending == u.pending;
    forall i: nat, p | Kept(s, i, p) ensures Kept(t, i, p) || Old(t, i, p) {
      if p.cts < c {
        assert p in Below(s.pending[i], c);
      }
    }
  }

  // ---- one round

  lemma {:induction false} RoundSound(s: Core, c: nat, i: nat)
    requires s.Shaped() && i <= |s.pending| && s.error.None?
    requires forall j :: i <= j < |s.pending| ==> c in s.pending[j]
    requires forall j :: 0 <= j < |s.writers| ==> Healthy(s.writers[j])
    ensures var t := RoundFrom(s, c, i);
            t.error.None? ==>
              && t == s.(pending := t.pending, writers := t.writers, end := c, count := s.count + 1)
              && (forall j :: 0 <= j < |t.writers| ==> Healthy(t.writers[j]))
              && (forall j :: 0 <= j < i ==> t.writers[j] == s.writers[j])
              && (forall j :: i <= j < |t.writers| ==>
                    t.writers[j].written == s.writers[j].written + [Output(s.pending[j][c], s.start, s.origins[j])])
    decreases |s.pending| - i
  {
    hide Written, Output, Healthy;
    if i < |s.pending| {
      var (w, ok) := Written(s.writers[i], Output(s.pending[i][c], s.start, s.origins[i]));
      if ok {
        WriteKeepsHealthy(s.writers[i], Output(s.pending[i][c], s.start, s.origins[i]));
        RoundSound(s.(writers := s.writers[i := w], pending := s.pending[i := s.pending[i] - {c}]), c, i + 1);
      }
    }
  }

  lemma RoundLockstep(s: Core, c: nat, list: seq<nat>)
    requires Lockstep(s, list) && s.started && InAll(s.pending, c) && RoundFrom(s, c, 0).error.None?
    ensures Lockstep(RoundFrom(s, c, 0), list + [c])
    ensures Retains(s, RoundFrom(s, c, 0))
    ensures RoundFrom(s, c, 0).start == s.start && RoundFrom(s, c, 0).started
  {
    hide Healthy, Output, RoundFrom;
    RoundSound(s, c, 0);
    var t := RoundFrom(s, c, 0);
    forall i | 0 <= i < |t.writers| ensures CtsOf(t.writers[i].written) == list + [c] {
      OutputKeepsCts(s.pending[i][c], s.start, s.origins[i]);
      CtsConcat(s.writers[i].written, [Output(s.pending[i][c], s.start, s.origins[i])]);
    }
    forall i: nat, p | Kept(s, i, p) ensures Kept(t, i, p) {
      assert t.pending[i] == s.pending[i] - {c};
      if p.cts == c && p.cts in s.pending[i] && s.pending[i][p.cts] == p {
        assert Output(p, s.start, s.origins[i]) in t.writers[i].written;
      }
    }
  }

  lemma OutputKeepsCts(p: Packet, start: nat, origin: int)
    ensures Output(p, start, origin).cts == p.cts
    ensures CtsOf([Output(p, start, origin)]) == [p.cts]
  {
  }

  lemma {:induction false} FlushSound(s: Core, list: seq<nat>) returns (list': seq<nat>)
    requires Lockstep(s, list) && s.started && Flushed(s).error.None?
    ensures Lockstep(Flushed(s), list') && Flushed(s).started
    ensures Retains(s, Flushed(s))
    decreases Backlog(s.pending)
  {
    hide RoundFrom;
    list' := list;
    if NextRound(s.pending).Some? {
      var c := NextRound(s.pending).value;
      RoundShrinks(s, c);
      RoundLockstep(s, c, list);
      list' := FlushSound(RoundFrom(s, c, 0), list + [c]);
    }
  }

  lemma SettleSound(s: Core, list: seq<nat>) returns (list': seq<nat>)
    requires Lockstep(s, list) && Settled(s).error.None?
    ensures Lockstep(Settled(s), list') && Retains(s, Settled(s))
  {
    hide Flushed, Elected, Election;
    list' := list;
    if s.started {
      list' := FlushSound(s, list);
    } else if Election(s.pending).Some? {
      ElectSound(s);
      list' := FlushSound(Elected(s), []);
    } else {
      NoElection(s);
    }
  }

  /** A recorder that has just been started, with unused writers. */
  ghost predicate Ready(s: Core) {
    Blank(s) && forall i :: 0 <= i < |s.writers| ==> Unused(s.writers[i])
  }

  /** In every run that has not failed, the files are in lockstep and every packet is accounted for. */
  lemma {:induction false} RunSound(s: Core, items: seq<Item>) returns (list: seq<nat>)
    requires Ready(s) && ProcessedAll(s, items).error.None?
    requires forall a :: 0 <= a < |items| ==> items[a].stream < |s.pending|
    ensures Lockstep(ProcessedAll(s, items), list)
    ensures forall a :: 0 <= a < |items| ==> Accounted(ProcessedAll(s, items), items[a].stream, items[a].packet)
  {
    hide Settled, Inserted, Total, Accounted;
    list := [];
    if |items| > 0 {
      var init, last := items[..|items| - 1], items[|items| - 1];
      assert forall a :: 0 <= a < |init| ==> init[a] == items[a];
      list := RunSound(s, init);
      var before := ProcessedAll(s, init);
      InsertSound(before, last, list);
      var t := Inserted(before, last);
      list := SettleSound(t, list);
      forall a | 0 <= a < |items| ensures Accounted(ProcessedAll(s, items), items[a].stream, items[a].packet) {
        if a < |init| {
          assert init[a] == items[a];
          RetainsAccounts(before, t, items[a].stream, items[a].packet);
        }
        RetainsAccounts(t, Settled(t), items[a].stream, items[a].packet);
      }
    }
  }

  // ---- a successful recording is complete

  lemma {:induction false} CloseChecks(s: Core, i: nat)
    requires s.Shaped() && i <= |s.writers| && s.error.None? && ClosedFrom(s, i).error.None?
    requires forall j :: i <= j < |s.writers| ==> Healthy(s.writers[j])
    ensures forall j :: i <= j < |s.writers| ==>
              && s.writers[j].last == s.end
              && (s.writers[j].first.Some? ==> s.writers[j].first.value == s.start)
              && ClosedFrom(s, i).writers[j].written == s.writers[j].written
    ensures forall j :: 0 <= j < i ==> ClosedFrom(s, i).writers[j] == s.writers[j]
    decreases |s.writers| - i
  {
    if i < |s.writers| {
      var (w, result) := Closed(s.writers[i]);
      var t := s.(writers := s.writers[i := w]);
      var u := if !result.success || result.first != s.start || result.last != s.end
               then t.(error := Some(LiveRecorderModel.RangeMismatch)) else t;
      CloseKeeps(u, i + 1);
      assert u == t;
      CloseChecks(t, i + 1);
      assert ClosedFrom(s, i) == ClosedFrom(t, i + 1);
      forall j | i <= j < |s.writers|
        ensures && s.writers[j].last == s.end
                && (s.writers[j].first.Some? ==> s.writers[j].first.value == s.start)
                && ClosedFrom(s, i).writers[j].written == s.writers[j].written
      {
        assert j > i ==> t.writers[j] == s.writers[j];
        assert t.writers[i] == w;
      }
    }
  }

  /** Some packet of the stream with this CTS was written, or was older than the start when it was elected. */
  ghost predicate Resolved(s: Core, start: nat, i: nat, cts: nat)
    requires s.Shaped() && i < |s.pending|
  {
    exists q: Packet :: q.cts == cts &&
      (Output(q, start, s.origins[i]) in s.writers[i].written || (q in s.older[i] && q.cts < start))
  }

  /** The packet was written, or dropped as older than the start, or dropped as a repetition of such a packet. */
  ghost predicate Explained(s: Core, start: nat, i: nat, p: Packet)
    requires s.Shaped()
  {
    i < |s.pending| &&
    (|| Output(p, start, s.origins[i]) in s.writers[i].written
     || (p in s.older[i] && p.cts < start)
     || (p in s.repeated[i] && Resolved(s, start, i, p.cts)))
  }

  lemma AccountedIsResolved(s: Core, i: nat, p: Packet)
    requires s.Shaped() && s.started && AllEmpty(s.pending) && Accounted(s, i, p)
    ensures Explained(s, s.start, i, p)
  {
    hide Output;
  }

  lemma ExplainedStill(s: Core, t: Core, start: nat, i: nat, p: Packet)
    requires s.Shaped() && t.Shaped() && |t.pending| == |s.pending| && Explained(s, start, i, p)
    requires t.origins == s.origins && t.repeated == s.repeated && t.older == s.older
    requires t.writers[i].written == s.writers[i].written
    ensures Explained(t, start, i, p)
  {
    hide Output;
  }

  /** Success means: all files hold the same CTS list, which spans exactly [start, end]; and every packet that was
      offered was written, or was dropped as older than the start when it was elected, or repeated the CTS of a packet
      of its stream that was written or so dropped. */
  lemma SuccessIsComplete(s: Core, steps: seq<Step>) returns (list: seq<nat>)
    requires Ready(s) && After(s, steps).outcome.Some? && After(s, steps).outcome.value.success
    ensures var r, offered := After(s, steps), Offered(steps, |s.pending|);
            var o := r.outcome.value;
            && |r.core.writers| == |s.pending|
            && (forall i :: 0 <= i < |r.core.writers| ==> CtsOf(r.core.writers[i].written) == list)
            && o.count == |list|
            && o.start in list && o.end in list && (forall c :: c in list ==> o.start <= c <= o.end)
            && (forall a :: 0 <= a < |offered| ==>
                  Explained(r.core, o.start, offered[a].stream, offered[a].packet))
  {
    hide ProcessedAll, Drained, Settled, Healthy, Output, Offered, After, Explained, Accounted;
    var offered := Offered(steps, |s.pending|);
    RunInStep(s, steps);
    OfferedIsLocal(steps, |s.pending|);
    var all := ProcessedAll(s, offered);
    var t := Drained(all);
    CloseKeeps(t, 0);
    SuccessDrained(all);
    list := RunSound(s, offered);
    list := SettleSound(all, list);
    CloseChecks(t, 0);
    assert |t.writers| == |s.pending|;
    SomethingWritten(t, list);
    SpansOfList(t.writers[0], list);
    ClosedKeepsLists(t, 0);
    forall a | 0 <= a < |offered|
      ensures Explained(t, t.start, offered[a].stream, offered[a].packet)
      ensures Explained(After(s, steps).core, t.start, offered[a].stream, offered[a].packet)
    {
      RetainsAccounts(all, t, offered[a].stream, offered[a].packet);
      AccountedIsResolved(t, offered[a].stream, offered[a].packet);
      ExplainedStill(t, After(s, steps).core, t.start, offered[a].stream, offered[a].packet);
    }
  }

  lemma SomethingWritten(s: Core, list: seq<nat>)
    requires Lockstep(s, list) && s.started && AllEmpty(s.pending) && |s.pending| > 0
    ensures list != []
  {
    assert s.pending[0] == map[];
  }

  lemma SuccessDrained(s: Core)
    requires s.Shaped() && Drained(s).error.None?
    ensures s.error.None? && Settled(s).error.None? && Drained(s) == Settled(s)
    ensures Drained(s).started && AllEmpty(Drained(s).pending)
  {
    hide Settled;
  }

  lemma {:induction false} ClosedKeepsLists(s: Core, i: nat)
    requires s.Shaped() && i <= |s.writers|
    ensures var t := ClosedFrom(s, i); t.origins == s.origins && t.repeated == s.repeated && t.older == s.older
    decreases |s.writers| - i
  {
    if i < |s.writers| {
      if s.error.Some? {
        ClosedKeepsLists(s.(writers := s.writers[i := s.writers[i].(isOpen := false)]), i + 1);
      } else {
        var (w, result) := Closed(s.writers[i]);
        var t := s.(writers := s.writers[i := w]);
        ClosedKeepsLists(if !result.success || result.first != s.start || result.last != s.end
                         then t.(error := Some(LiveRecorderModel.RangeMismatch)) else t, i + 1);
      }
    }
  }

  lemma SpansOfList(w: Writer, list: seq<nat>)
    requires Healthy(w) && CtsOf(w.written) == list && list != []
    ensures w.first.Some? && w.first.value in list && w.last in list
    ensures forall c :: c in list ==> w.first.value <= c <= w.last
  {
    forall q | q in w.written ensures q.cts in list {
      var i :| 0 <= i < |w.written| && w.written[i] == q;
      assert CtsOf(w.written)[i] == q.cts;
    }
    forall c | c in list ensures w.first.value <= c <= w.last {
      var i :| 0 <= i < |list| && list[i] == c;
      assert w.written[i] in w.written;
    }
  }
}
