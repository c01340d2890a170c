/** The outcome of a live recording does not depend on how the streams were interleaved: processing packet by
    packet amounts to putting every packet in place first and settling once. */
module LiveRecorderSchedule {
  import opened Packets
  import opened MkvWriter
  import opened LiveRecorderModel

  /** Equal, or failed in the same way with the same files. */
  ghost predicate Equivalent(s: Core, t: Core) {
    if s.error.None? then s == t
    else t.error == s.error && s.(pending := [], configs := []) == t.(pending := [], configs := [])
  }

  /** The packet is newer than anything pending in its stream. */
  ghost predicate Fresh(s: Core, item: Item) {
    && item.stream < |s.pending|
    && forall k :: k in s.pending[item.stream] ==> k < item.packet.cts
  }

  // ---- a fresh packet commutes with every worker action

  lemma InsertFresh(s: Core, item: Item)
    requires s.Shaped() && Fresh(s, item)
    ensures Inserted(s, item) ==
            s.(pending := s.pending[item.stream := Put(s.pending[item.stream], item.packet)],
               configs := if item.header then s.configs[item.stream := s.configs[item.stream].(header := true)]
                          else s.configs)
  {
  }

  lemma PutRemove(m: map<nat, Packet>, p: Packet, c: nat)
    requires p.cts != c
    ensures Put(m - {c}, p) == Put(m, p) - {c}
  {
  }

  lemma {:induction false} RoundInsert(s: Core, c: nat, i: nat, item: Item)
    requires s.Shaped() && i <= |s.pending| && s.error.None?
    requires forall j :: i <= j < |s.pending| ==> c in s.pending[j]
    requires Fresh(s, item) && item.packet.cts != c
    ensures forall j :: i <= j < |s.pending| ==> c in Inserted(s, item).pending[j]
    ensures var t := RoundFrom(s, c, i);
            Equivalent(if t.error.None? then Inserted(t, item) else t, RoundFrom(Inserted(s, item), c, i))
    ensures RoundFrom(s, c, i).error.None? ==> Fresh(RoundFrom(s, c, i), item)
    decreases |s.pending| - i
  {
    hide Written, Output;
    InsertFresh(s, item);
    if i < |s.pending| {
      var (w, ok) := Written(s.writers[i], Output(s.pending[i][c], s.start, s.origins[i]));
      if ok {
        var s' := s.(writers := s.writers[i := w], pending := s.pending[i := s.pending[i] - {c}]);
        InsertFresh(s', item);
        PutRemove(s.pending[i], item.packet, c);
        var u := Inserted(s, item);
        assert Inserted(s', item) == u.(writers := u.writers[i := w],
                                        pending := u.pending[i := u.pending[i] - {c}]) by {
          SwapUpdates(s.pending, item.stream, i, item.packet, c);
        }
        RoundInsert(s', c, i + 1, item);
      }
    }
  }

  lemma SwapUpdates(pending: seq<map<nat, Packet>>, j: nat, i: nat, p: Packet, c: nat)
    requires j < |pending| && i < |pending| && p.cts != c
    ensures var x := pending[j := Put(pending[j], p)];
            var y := pending[i := pending[i] - {c}];
            x[i := x[i] - {c}] == y[j := Put(y[j], p)]
  {
    PutRemove(pending[i], p, c);
  }

  lemma NextRoundInsert(s: Core, item: Item)
    requires s.Shaped() && Fresh(s, item) && NextRound(s.pending).Some?
    ensures NextRound(Inserted(s, item).pending) == NextRound(s.pending)
    ensures item.packet.cts != NextRound(s.pending).value
  {
    InsertFresh(s, item);
    var c, t := NextRound(s.pending).value, Inserted(s, item);
    assert c in s.pending[item.stream];
    LeastIs(t.pending[0].Keys, c);
  }

  lemma RoundShrinks(s: Core, c: nat)
    requires s.Shaped() && s.error.None? && NextRound(s.pending) == Some(c)
    ensures RoundFrom(s, c, 0).error.None? ==> Backlog(RoundFrom(s, c, 0).pending) < Backlog(s.pending)
  {
    var t := RoundFrom(s, c, 0);
    if t.error.None? {
      assert t.pending[0].Keys == s.pending[0].Keys - {c};
    }
  }

  /** Flushing, adding a fresh packet and flushing again is adding it first and flushing once. */
  lemma {:induction false} FlushInsert(s: Core, item: Item)
    requires s.Shaped() && s.error.None? && Fresh(s, item)
    ensures var t := Flushed(s);
            Equivalent(if t.error.None? then Flushed(Inserted(t, item)) else t, Flushed(Inserted(s, item)))
    decreases Backlog(s.pending)
  {
    hide RoundFrom, Inserted;
    InsertKeepsError(s, item);
    if NextRound(s.pending).Some? {
      var c := NextRound(s.pending).value;
      NextRoundInsert(s, item);
      RoundInsert(s, c, 0, item);
      RoundShrinks(s, c);
      var t := RoundFrom(s, c, 0);
      if t.error.None? {
        InsertKeepsError(t, item);
        FlushInsert(t, item);
      }
    }
  }

  lemma InsertKeepsError(s: Core, item: Item)
    requires s.Shaped()
    ensures Inserted(s, item).error == s.error && Inserted(s, item).started == s.started
  {
  }

  lemma ElectionInsert(s: Core, item: Item)
    requires s.Shaped() && Fresh(s, item) && Election(s.pending).Some?
    ensures Election(Inserted(s, item).pending) == Election(s.pending)
    ensures item.packet.cts > Election(s.pending).value
  {
    InsertFresh(s, item);
    var c, t := Election(s.pending).value, Inserted(s, item);
    assert KeyInAll(s.pending, c);
    assert c in s.pending[item.stream];
    assert KeyInAll(t.pending, c);
    forall k | k in CommonKeys(t.pending) ensures c <= k {
      if k < c {
        assert k != item.packet.cts;
        forall i | 0 <= i < |s.pending| ensures k in s.pending[i] && s.pending[i][k].keyframe {
          assert k in t.pending[i] && t.pending[i][k].keyframe;
        }
        assert KeyInAll(s.pending, k);
      }
    }
    assert c in CommonKeys(t.pending);
    LeastIs(CommonKeys(t.pending), c);
  }

  /** Adding a packet above the start, with no news about the header, commutes with opening. */
  lemma {:induction false} OpenInsert(s: Core, c: nat, i: nat, item: Item)
    requires s.Shaped() && i <= |s.pending| && InAll(s.pending, c) && Fresh(s, item) && item.packet.cts > c
    requires item.header ==> s.configs[item.stream].header
    ensures InAll(Inserted(s, item).pending, c)
    ensures var t := OpenedFrom(s, c, i);
            OpenedFrom(Inserted(s, item), c, i) == t.(pending := Inserted(s, item).pending)
    decreases |s.pending| - i
  {
    InsertFresh(s, item);
    var u := Inserted(s, item);
    assert u.configs == s.configs;
    if i < |s.pending| && Opens(s.writers[i], s.configs[i]) {
      var s' := s.(writers := s.writers[i := OpenedWriter(s.writers[i])],
                   origins := s.origins[i := s.pending[i][c].dts]);
      InsertFresh(s', item);
      assert u.pending[i][c] == s.pending[i][c];
      OpenInsert(s', c, i + 1, item);
    }
  }

  lemma BelowPut(m: map<nat, Packet>, p: Packet, c: nat)
    requires p.cts >= c
    ensures Below(Put(m, p), c) == Below(m, c)
  {
    forall q ensures q in Below(Put(m, p), c) <==> q in Below(m, c) {
      if k :| k in m && k < c && m[k] == q {
        assert Put(m, p)[k] == q;
      }
      if k :| k in Put(m, p) && k < c && Put(m, p)[k] == q {
        assert m[k] == q;
      }
    }
  }

  lemma TrimInsert(s: Core, c: nat, item: Item)
    requires s.Shaped() && Fresh(s, item) && item.packet.cts > c
    ensures Fresh(Trimmed(s, c), item)
    ensures Trimmed(Inserted(s, item), c) == Inserted(Trimmed(s, c), item)
  {
    InsertFresh(s, item);
    var x, y := Trimmed(Inserted(s, item), c), Trimmed(s, c);
    InsertFresh(y, item);
    var m, p := s.pending[item.stream], item.packet;
    assert AtOrAbove(Put(m, p), c) == Put(AtOrAbove(m, c), p);
    BelowPut(m, p, c);
    assert x.pending == y.pending[item.stream := Put(y.pending[item.stream], p)];
    assert x.older == y.older;
  }

  /** No packet brings the codec header to a stream after the start has been found without it. */
  ghost predicate TimelyHeader(s: Core, item: Item) {
    item.stream < |s.configs| && Election(s.pending).Some? && item.header ==> s.configs[item.stream].header
  }

  lemma ElectInsert(s: Core, item: Item)
    requires s.Shaped() && s.error.None? && Fresh(s, item) && Election(s.pending).Some? && TimelyHeader(s, item)
    ensures Fresh(Elected(s), item)
    ensures var e := Elected(s);
            Elected(Inserted(s, item)) == e.(pending := Inserted(e, item).pending)
            && (e.error.None? ==> Elected(Inserted(s, item)) == Inserted(e, item))
  {
    var c := Election(s.pending).value;
    ElectionInsert(s, item);
    TrimInsert(s, c, item);
    TrimmedHasStart(s, c);
    OpenInsert(Trimmed(s, c), c, 0, item);
    InsertFresh(Elected(s), item);
    InsertFresh(Trimmed(s, c), item);
    assert Elected(s).configs[item.stream := Elected(s).configs[item.stream]] == Elected(s).configs;
  }

  lemma TrimmedHasStart(s: Core, c: nat)
    requires s.Shaped() && KeyInAll(s.pending, c)
    ensures InAll(Trimmed(s, c).pending, c)
  {
  }

  lemma {:induction false} OpenedStarts(s: Core, c: nat, i: nat)
    requires s.Shaped() && i <= |s.pending| && InAll(s.pending, c) && s.error.None?
    ensures var t := OpenedFrom(s, c, i);
            (t.error.None? <==> t.error != Some(OpenFailed)) && (t.error.None? ==> t.started)
            && t.start == s.start && t.end == s.end && t.count == s.count
            && (t.error.Some? ==> t.started == s.started)
    decreases |s.pending| - i
  {
    if i < |s.pending| && Opens(s.writers[i], s.configs[i]) {
      OpenedStarts(s.(writers := s.writers[i := OpenedWriter(s.writers[i])],
                      origins := s.origins[i := s.pending[i][c].dts]), c, i + 1);
    }
  }

  lemma SettleInsert(s: Core, item: Item)
    requires s.Shaped() && s.error.None? && Fresh(s, item) && (s.started || TimelyHeader(s, item))
    ensures Inserted(s, item).error.None?
    ensures var t := Settled(s);
            Equivalent(if t.error.None? then Settled(Inserted(t, item)) else t, Settled(Inserted(s, item)))
  {
    hide Flushed, Inserted, Elected;
    InsertKeepsError(s, item);
    if s.started {
      FlushInsert(s, item);
      FlushKeepsStart(s);
      if Flushed(s).error.None? { InsertKeepsError(Flushed(s), item); }
    } else if Election(s.pending).Some? {
      ElectInsert(s, item);
      ElectedStarts(s);
      var e := Elected(s);
      InsertKeepsError(e, item);
      if e.error.None? {
        FlushInsert(e, item);
        FlushKeepsStart(e);
        if Flushed(e).error.None? { InsertKeepsError(Flushed(e), item); }
      } else {
        EquivalentPending(e, Inserted(e, item).pending);
      }
    } else {
      assert Elected(s) == s by { NoElection(s); }
    }
  }

  lemma EquivalentPending(s: Core, pending: seq<map<nat, Packet>>)
    requires s.error.Some?
    ensures Equivalent(s, s.(pending := pending))
  {
  }

  lemma NoElection(s: Core)
    requires s.Shaped() && Election(s.pending).None?
    ensures Elected(s) == s
  {
  }

  lemma ElectedStarts(s: Core)
    requires s.Shaped() && s.error.None? && !s.started && Election(s.pending).Some?
    ensures Elected(s).error.None? ==> Elected(s).started
    ensures Elected(s).error.Some? ==> Elected(s).error == Some(OpenFailed) && !Elected(s).started
    ensures Elected(s).start == Election(s.pending).value
    ensures Elected(s).end == s.end && Elected(s).count == s.count
  {
    var c := Election(s.pending).value;
    TrimmedHasStart(s, c);
    OpenedStarts(Trimmed(s, c), c, 0);
  }

  lemma {:induction false} FlushKeepsStart(s: Core)
    requires s.Shaped() && s.error.None?
    ensures Flushed(s).started == s.started && Flushed(s).start == s.start && Flushed(s).configs == s.configs
    ensures Flushed(s).error in {None, Some(WriteFailed)}
    ensures Flushed(s).error.None? ==> NextRound(Flushed(s).pending).None?
    decreases Backlog(s.pending)
  {
    hide RoundFrom;
    if NextRound(s.pending).Some? {
      var c := NextRound(s.pending).value;
      RoundShrinks(s, c);
      RoundKeepsStart(s, c, 0);
      if RoundFrom(s, c, 0).error.None? {
        FlushKeepsStart(RoundFrom(s, c, 0));
      }
    }
  }

  lemma {:induction false} RoundKeepsStart(s: Core, c: nat, i: nat)
    requires s.Shaped() && i <= |s.pending| && s.error.None?
    requires forall j :: i <= j < |s.pending| ==> c in s.pending[j]
    ensures var t := RoundFrom(s, c, i);
            && t.started == s.started && t.start == s.start && t.configs == s.configs
            && t.error in {None, Some(WriteFailed)}
    decreases |s.pending| - i
  {
    hide Written, Output;
    if i < |s.pending| {
      var (w, ok) := Written(s.writers[i], Output(s.pending[i][c], s.start, s.origins[i]));
      if ok {
        RoundKeepsStart(s.(writers := s.writers[i := w], pending := s.pending[i := s.pending[i] - {c}]), c, i + 1);
      }
    }
  }

  // ---- incremental processing against one batch

  ghost function InsertedAll(s: Core, items: seq<Item>): (t: Core)
    requires s.Shaped()
    ensures t.Shaped() && |t.pending| == |s.pending|
  {
    if |items| == 0 then s else Inserted(InsertedAll(s, items[..|items| - 1]), items[|items| - 1])
  }

  /** Each stream delivers strictly increasing CTS values. */
  ghost predicate Ordered(items: seq<Item>) {
    forall a, b :: 0 <= a < b < |items| && items[a].stream == items[b].stream ==>
      items[a].packet.cts < items[b].packet.cts
  }

  /** In this schedule no header arrives after the start could be elected without it. */
  ghost predicate Timely(s: Core, items: seq<Item>)
    requires s.Shaped()
  {
    |items| > 0 ==>
      Timely(s, items[..|items| - 1]) && TimelyHeader(InsertedAll(s, items[..|items| - 1]), items[|items| - 1])
  }

  /** A recorder that has just been started. */
  ghost predicate Blank(s: Core) {
    && s.Shaped() && |s.pending| > 0 && !s.started && s.error.None? && s.start == 0 && s.end == 0 && s.count == 0
    && forall i :: 0 <= i < |s.pending| ==> s.pending[i] == map[]
  }

  lemma {:induction false} InsertedAllKeys(s: Core, items: seq<Item>)
    requires Blank(s)
    ensures var t := InsertedAll(s, items);
            && t.error.None? && !t.started && t.end == 0 && t.count == 0 && t.start == 0
            && forall i, k :: 0 <= i < |t.pending| && k in t.pending[i] ==>
                 exists a :: 0 <= a < |items| && items[a].stream == i && items[a].packet.cts == k
  {
    if |items| > 0 {
      var init, last := items[..|items| - 1], items[|items| - 1];
      InsertedAllKeys(s, init);
      var t, u := InsertedAll(s, init), InsertedAll(s, items);
      forall i, k | 0 <= i < |u.pending| && k in u.pending[i]
        ensures exists a :: 0 <= a < |items| && items[a].stream == i && items[a].packet.cts == k
      {
        if k in t.pending[i] {
          var a :| 0 <= a < |init| && init[a].stream == i && init[a].packet.cts == k;
          assert items[a] == init[a];
        } else {
          assert items[|items| - 1].stream == i && items[|items| - 1].packet.cts == k;
        }
      }
    }
  }

  lemma NextIsFresh(s: Core, items: seq<Item>)
    requires Blank(s) && |items| > 0 && Ordered(items) && items[|items| - 1].stream < |s.pending|
    ensures Fresh(InsertedAll(s, items[..|items| - 1]), items[|items| - 1])
  {
    var init, last := items[..|items| - 1], items[|items| - 1];
    InsertedAllKeys(s, init);
    var t := InsertedAll(s, init);
    forall k | k in t.pending[last.stream] ensures k < last.packet.cts {
      var a :| 0 <= a < |init| && init[a].stream == last.stream && init[a].packet.cts == k;
      assert items[a] == init[a];
    }
  }

  lemma OrderedInit(items: seq<Item>)
    requires Ordered(items) && |items| > 0
    ensures Ordered(items[..|items| - 1])
  {
    var init := items[..|items| - 1];
    forall a, b | 0 <= a < b < |init| && init[a].stream == init[b].stream
      ensures init[a].packet.cts < init[b].packet.cts
    {
      assert items[a] == init[a] && items[b] == init[b];
    }
  }

  lemma NothingToFlush(s: Core)
    requires s.Shaped() && s.error.None? && NextRound(s.pending).None?
    ensures Flushed(s) == s
  {
  }

  lemma SettledTwice(s: Core)
    requires s.Shaped() && s.error.None? && Settled(s).error.None?
    ensures Settled(Settled(s)) == Settled(s)
  {
    hide RoundFrom, Flushed, Elected;
    if !s.started {
      if Election(s.pending).Some? { ElectedStarts(s); } else { NoElection(s); }
    }
    var e := if s.started then s else Elected(s);
    if e.started {
      FlushKeepsStart(e);
      NothingToFlush(Flushed(e));
    }
  }

  lemma SettleNothing(s: Core)
    requires Blank(s)
    ensures Settled(s) == s
  {
    assert CommonKeys(s.pending) == {};
  }

  ghost predicate Overflowed(s: Core) {
    s.error in {Some(PendingOverflow), Some(QueueOverflow)}
  }

  /** Processing packet by packet is equivalent to placing every packet first and settling once. */
  lemma {:induction false} StreamingIsBatch(s: Core, items: seq<Item>)
    requires Blank(s) && Ordered(items) && Timely(s, items)
    requires forall a :: 0 <= a < |items| ==> items[a].stream < |s.pending|
    requires !Overflowed(ProcessedAll(s, items))
    ensures InsertedAll(s, items).error.None?
    ensures Equivalent(ProcessedAll(s, items), Settled(InsertedAll(s, items)))
  {
    hide Settled, Inserted, Election;
    InsertedAllKeys(s, items);
    if |items| == 0 {
      SettleNothing(s);
    } else {
      var init, last := items[..|items| - 1], items[|items| - 1];
      OrderedInit(items);
      assert forall a :: 0 <= a < |init| ==> init[a] == items[a];
      var before, w := ProcessedAll(s, init), InsertedAll(s, init);
      InsertedAllKeys(s, init);
      StreamingIsBatch(s, init);
      NextIsFresh(s, items);
      SettleInsert(w, last);
      if before.error.None? {
        assert before == Settled(w);
        InsertKeepsError(before, last);
        assert ProcessedAll(s, items) == Settled(Inserted(before, last));
      } else {
        EquivalentChain(before, Settled(w), Settled(Inserted(w, last)));
      }
    }
  }

  lemma EquivalentChain(s: Core, t: Core, u: Core)
    requires Equivalent(s, t) && Equivalent(t, u)
    ensures Equivalent(s, u)
  {
  }
}
