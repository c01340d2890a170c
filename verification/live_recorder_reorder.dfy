/** Three runs over frames that are decoded in another order than they are shown. Which packets are delivered decides
    nothing alone: the order of delivery makes the recording succeed, fail to write, or fail to close. */
module LiveRecorderReorder {
  import opened Packets
  import opened MkvWriter
  import opened LiveRecorderModel
  import opened LiveRecorderSchedule
  import opened LiveRecorderOutcome
  import opened LiveRecorderMeaning
  import opened LiveRecorderRounds
  import opened LiveRecorderVerdict
  import opened LiveRecorderDraft
  import opened LiveRecorderWitness

  function Coded(cts: nat, dts: int, keyframe: bool): Packet {
    Packet(cts, cts, dts, 1, 1000, keyframe, 1)
  }

  const KEY := Coded(100, 100, true)
  const FAR := Coded(120, 101, false)
  const NEAR := Coded(110, 102, false)
  const NEXT := Coded(130, 103, false)

  const FILE := Writer(false, 0, 0, None, None, None, 0, [], None, 100, Timebase(1, 1000))
  const SETTINGS := StreamConfig(true, 1, 1000, true)

  function Both(m: map<nat, Packet>, n: map<nat, Packet>): (r: seq<map<nat, Packet>>)
    ensures |r| == 2 && r[0] == m && r[1] == n
  {
    [m, n]
  }

  /** Before the start; both headers are there from the beginning. */
  function Before(m: map<nat, Packet>, n: map<nat, Packet>): Core {
    Core(Both(m, n), [SETTINGS, SETTINGS], [FILE, FILE], [0, 0], false, 0, 0, 0, None, [{}, {}], [{}, {}])
  }

  /** After the start at 100; both files are to receive `plan`. */
  function Running(m: map<nat, Packet>, n: map<nat, Packet>, plan: seq<Packet>, end: nat): Core {
    var w := OpenedWriter(FILE).(written := plan);
    Core(Both(m, n), [SETTINGS, SETTINGS], [w, w], [100, 100], true, 100, end, |plan|, None, [{}, {}], [{}, {}])
  }

  function Rebased(p: Packet): Packet {
    Output(p, 100, 100)
  }

  // ---- one step of the draft

  lemma SmallTotal(pending: seq<map<nat, Packet>>)
    requires |pending| == 2
    ensures Total(pending) == |pending[0]| + |pending[1]|
  {
    assert pending[..1][..0] == [];
    assert Total(pending[..1]) == Total(pending[..1][..0]) + |pending[0]|;
  }

  lemma SizePut(m: map<nat, Packet>, p: Packet)
    ensures |Put(m, p)| <= |m| + 1
  {
    var n := Put(m, p);
    assert n.Keys == m.Keys + {p.cts};
    assert |n| == |n.Keys| && |m| == |m.Keys|;
  }

  lemma InsertBefore(m: map<nat, Packet>, n: map<nat, Packet>, stream: nat, p: Packet)
    requires stream < 2 && p.cts !in Both(m, n)[stream]
    ensures Inserted(Before(m, n), Item(stream, p, false)) ==
            if stream == 0 then Before(Put(m, p), n) else Before(m, Put(n, p))
  {
    var t := Inserted(Before(m, n), Item(stream, p, false));
    assert t.pending == if stream == 0 then Both(Put(m, p), n) else Both(m, Put(n, p));
  }

  lemma InsertRunning(m: map<nat, Packet>, n: map<nat, Packet>, plan: seq<Packet>, end: nat, stream: nat, p: Packet)
    requires stream < 2 && p.cts !in Both(m, n)[stream]
    ensures Inserted(Running(m, n, plan, end), Item(stream, p, false)) ==
            if stream == 0 then Running(Put(m, p), n, plan, end) else Running(m, Put(n, p), plan, end)
  {
    var t := Inserted(Running(m, n, plan, end), Item(stream, p, false));
    assert t.pending == if stream == 0 then Both(Put(m, p), n) else Both(m, Put(n, p));
  }

  lemma NextIs(m: map<nat, Packet>, n: map<nat, Packet>, c: nat)
    requires c in m && forall k :: k in m ==> c <= k
    ensures NextRound(Both(m, n)) == if c in n then Some(c) else None
  {
    LeastIs(m.Keys, c);
    assert InAll(Both(m, n), c) <==> c in n by {
      assert Both(m, n)[0] == m && Both(m, n)[1] == n;
    }
  }

  lemma Quiet(m: map<nat, Packet>, n: map<nat, Packet>, plan: seq<Packet>, end: nat)
    requires NextRound(Both(m, n)).None?
    ensures FlushDrafted(Running(m, n, plan, end)) == Running(m, n, plan, end)
  {
    var d := Running(m, n, plan, end);
    NoRounds(Both(m, n));
    RoundsCover(d.pending);
    assert forall i :: 0 <= i < 2 ==> d.writers[i].written + Outputs(d.pending[i], [], 100, 100) == plan;
    assert Appended(d, []) == d.writers;
  }

  /** The first round and what is left for the others. */
  lemma FirstRound(m: map<nat, Packet>, n: map<nat, Packet>, c: nat) returns (list: seq<nat>)
    requires NextRound(Both(m, n)) == Some(c) && c in m && c in n && m[c] == n[c]
    ensures list == Rounds(Both(m - {c}, n - {c})) && Rounds(Both(m, n)) == [c] + list
    ensures Spent(Both(m, n)) == Spent(Both(m - {c}, n - {c}))
    ensures (forall k :: k in list ==> k in m - {c} && k in n - {c}) && forall k :: k in [c] + list ==> k in m && k in n
    ensures Outputs(m, [c] + list, 100, 100) == [Rebased(m[c])] + Outputs(m - {c}, list, 100, 100)
    ensures Outputs(n, [c] + list, 100, 100) == [Rebased(m[c])] + Outputs(n - {c}, list, 100, 100)
  {
    hide NextRound, Output, Rounds, Spent;
    var pending, rest := Both(m, n), Both(m - {c}, n - {c});
    assert Without(pending, c) == rest;
    RoundsUnfold(pending, c);
    SpentUnfold(pending, c);
    RoundsCover(rest);
    StartsOnce(pending, c);
    list := Rounds(rest);
    assert forall k :: k in list ==> k in rest[0] && k in rest[1];
    OutputsFront(m, c, list, 100, 100);
    OutputsFront(n, c, list, 100, 100);
  }

  lemma SameFlush(d: Core, e: Core, c: nat, list: seq<nat>)
    requires d.Shaped() && e.Shaped() && Covers(d.pending, [c] + list) && Covers(e.pending, list)
    requires Rounds(d.pending) == [c] + list && Rounds(e.pending) == list && Spent(d.pending) == Spent(e.pending)
    requires e == d.(pending := e.pending, writers := e.writers, count := d.count + 1, end := c)
    requires Appended(d, [c] + list) == Appended(e, list)
    ensures FlushDrafted(d) == FlushDrafted(e)
  {
    hide Rounds, Spent, Appended, Covers;
  }

  lemma AppendedFirst(d: Core, e: Core, c: nat, list: seq<nat>, p: Packet)
    requires d.Shaped() && e.Shaped() && |d.pending| == |e.pending|
    requires Covers(d.pending, [c] + list) && Covers(e.pending, list)
    requires forall i :: 0 <= i < |d.writers| ==>
               && e.writers[i] == d.writers[i].(written := d.writers[i].written + [p])
               && Outputs(d.pending[i], [c] + list, d.start, d.origins[i]) ==
                  [p] + Outputs(e.pending[i], list, e.start, e.origins[i])
    ensures Appended(d, [c] + list) == Appended(e, list)
  {
    hide Outputs;
    forall i | 0 <= i < |d.writers| ensures Appended(d, [c] + list)[i] == Appended(e, list)[i] {
      var plan, more := d.writers[i].written, Outputs(e.pending[i], list, e.start, e.origins[i]);
      assert plan + ([p] + more) == plan + [p] + more;
    }
  }

  /** One round, then the others. */
  lemma OneRound(m: map<nat, Packet>, n: map<nat, Packet>, plan: seq<Packet>, end: nat, c: nat)
    requires NextRound(Both(m, n)) == Some(c) && c in m && c in n && m[c] == n[c]
    ensures FlushDrafted(Running(m, n, plan, end)) ==
            FlushDrafted(Running(m - {c}, n - {c}, plan + [Rebased(m[c])], c))
  {
    hide NextRound, Rounds, Spent, Outputs, Rebased, FlushDrafted, Appended;
    var list := FirstRound(m, n, c);
    RoundsCover(Both(m, n));
    RoundsCover(Both(m - {c}, n - {c}));
    hide Covers;
    var d, e := Running(m, n, plan, end), Running(m - {c}, n - {c}, plan + [Rebased(m[c])], c);
    AppendedFirst(d, e, c, list, Rebased(m[c]));
    SameFlush(d, e, c, list);
  }

  lemma SpentUnfold(pending: seq<map<nat, Packet>>, c: nat)
    requires NextRound(pending) == Some(c)
    ensures Spent(pending) == Spent(Without(pending, c))
  {
    WithoutShrinks(pending);
  }

  lemma Elects(m: map<nat, Packet>, n: map<nat, Packet>)
    requires 100 in m && m[100].keyframe && m[100].dts == 100 && forall k :: k in m ==> 100 <= k
    requires 100 in n && n[100].keyframe && n[100].dts == 100 && forall k :: k in n ==> 100 <= k
    ensures Elected(Before(m, n)) == Running(m, n, [], 0)
  {
    var s := Before(m, n);
    ElectsAt(Both(m, n));
    TrimsNothing(m, n);
    var t := Trimmed(s, 100);
    TrimmedHasStart(s, 100);
    OpenedExactly(t, 100, 0);
    var e := Elected(s);
    assert e.writers == Running(m, n, [], 0).writers && e.origins == [100, 100];
  }

  lemma ElectsAt(pending: seq<map<nat, Packet>>)
    requires |pending| == 2 && forall k :: k in pending[0] ==> 100 <= k
    requires 100 in pending[0] && pending[0][100].keyframe && 100 in pending[1] && pending[1][100].keyframe
    ensures KeyInAll(pending, 100) && Election(pending) == Some(100)
  {
    assert KeyInAll(pending, 100);
    assert 100 in CommonKeys(pending);
    LeastIs(CommonKeys(pending), 100);
  }

  lemma TrimsNothing(m: map<nat, Packet>, n: map<nat, Packet>)
    requires (forall k :: k in m ==> 100 <= k) && forall k :: k in n ==> 100 <= k
    ensures Trimmed(Before(m, n), 100) == Before(m, n).(start := 100)
  {
    var t := Trimmed(Before(m, n), 100);
    assert AtOrAbove(m, 100) == m && AtOrAbove(n, 100) == n;
    assert Below(m, 100) == {} && Below(n, 100) == {};
    assert t.pending == Both(m, n);
    forall i | 0 <= i < 2 ensures t.older[i] == {} {
      assert Before(m, n).older[i] == {} && Below(Before(m, n).pending[i], 100) == {};
    }
    assert t.older == Before(m, n).older;
  }

  lemma DraftRunning(m: map<nat, Packet>, n: map<nat, Packet>, plan: seq<Packet>, end: nat, stream: nat, p: Packet)
    requires stream < 2 && p.cts !in Both(m, n)[stream] && |m| + |n| < 10
    ensures Drafted(Running(m, n, plan, end), Item(stream, p, false)) ==
            FlushDrafted(if stream == 0 then Running(Put(m, p), n, plan, end) else Running(m, Put(n, p), plan, end))
  {
    hide FlushDrafted, Total, Put, Inserted;
    InsertRunning(m, n, plan, end, stream, p);
    SizePut(m, p);
    SizePut(n, p);
    SmallTotal(Inserted(Running(m, n, plan, end), Item(stream, p, false)).pending);
  }

  lemma DraftBefore(m: map<nat, Packet>, p: Packet)
    requires p.cts !in m && |m| < 10
    ensures Drafted(Before(m, map[]), Item(0, p, false)) == Before(Put(m, p), map[])
  {
    hide FlushDrafted, Total, Put, Inserted, Elected, Election;
    InsertBefore(m, map[], 0, p);
    SizePut(m, p);
    SmallTotal(Both(Put(m, p), map[]));
    NothingCommon(Before(Put(m, p), map[]));
    NoElection(Before(Put(m, p), map[]));
  }

  /** The first frame of stream 1 starts the recording. */
  lemma DraftStarts(m: map<nat, Packet>)
    requires 100 in m && m[100] == KEY && (forall k :: k in m ==> 100 <= k) && |m| < 10
    ensures Drafted(Before(m, map[]), Item(1, KEY, false)) == FlushDrafted(Running(m, Put(map[], KEY), [], 0))
  {
    hide FlushDrafted, Total, Inserted, Elected;
    InsertBefore(m, map[], 1, KEY);
    SizePut(map[], KEY);
    SmallTotal(Both(m, Put(map[], KEY)));
    Elects(m, Put(map[], KEY));
  }

  lemma Alone(p: Packet)
    ensures Put(map[], p) - {p.cts} == map[] && forall k :: k in Put(map[], p) ==> k == p.cts
  {
  }

  /** The rounds end when stream 0 has nothing left. */
  lemma Exhausted(n: map<nat, Packet>, plan: seq<Packet>, end: nat)
    ensures FlushDrafted(Running(map[], n, plan, end)) == Running(map[], n, plan, end)
  {
    Quiet(map[], n, plan, end);
  }

  /** A frame of both streams, delivered one after the other. */
  lemma PairDrafted(plan: seq<Packet>, end: nat, p: Packet)
    ensures var d := Running(map[], map[], plan, end);
            Drafted(Drafted(d, Item(0, p, false)), Item(1, p, false)) ==
            Running(map[], map[], plan + [Rebased(p)], p.cts)
  {
    hide FlushDrafted, Drafted, Rebased, NextRound;
    var m := Put(map[], p);
    Alone(p);
    DraftRunning(map[], map[], plan, end, 0, p);
    NextIs(m, map[], p.cts);
    Quiet(m, map[], plan, end);
    SizePut(map[], p);
    DraftRunning(m, map[], plan, end, 1, p);
    NextIs(m, m, p.cts);
    OneRound(m, m, plan, end, p.cts);
    Exhausted(map[], plan + [Rebased(p)], p.cts);
  }

  lemma FirstPairDrafted()
    ensures Drafted(Drafted(Before(map[], map[]), Item(0, KEY, false)), Item(1, KEY, false)) ==
            Running(map[], map[], [Rebased(KEY)], 100)
  {
    hide FlushDrafted, Drafted, Rebased, NextRound;
    var m := Put(map[], KEY);
    Alone(KEY);
    DraftBefore(map[], KEY);
    SizePut(map[], KEY);
    DraftStarts(m);
    NextIs(m, m, 100);
    OneRound(m, m, [], 0, 100);
    Exhausted(map[], [] + [Rebased(KEY)], 100);
    assert [] + [Rebased(KEY)] == [Rebased(KEY)];
  }

  // ---- the deliveries

  function Pair(p: Packet): seq<Item> {
    [Item(0, p, false)] + [Item(1, p, false)]
  }

  /** Both streams in step, in decode order. */
  function InStepUpToNear(): seq<Item> {
    Pair(KEY) + Pair(FAR) + Pair(NEAR)
  }

  function InStepAll(): seq<Item> {
    InStepUpToNear() + Pair(NEXT)
  }

  function OneStream(stream: nat): seq<Item> {
    [Item(stream, KEY, false)] + [Item(stream, FAR, false)] + [Item(stream, NEAR, false)] + [Item(stream, NEXT, false)]
  }

  /** Stream 0 first, each stream in decode order. */
  function ByStream(): seq<Item> {
    OneStream(0) + OneStream(1)
  }

  lemma DraftedSnoc(s: Core, items: seq<Item>, item: Item)
    requires s.Shaped()
    ensures DraftedAll(s, items + [item]) == Drafted(DraftedAll(s, items), item)
  {
    assert (items + [item])[..|items|] == items;
  }

  lemma DraftedPair(s: Core, items: seq<Item>, p: Packet)
    requires s.Shaped()
    ensures DraftedAll(s, items + Pair(p)) ==
            Drafted(Drafted(DraftedAll(s, items), Item(0, p, false)), Item(1, p, false))
  {
    hide DraftedAll, Drafted;
    DraftedSnoc(s, items, Item(0, p, false));
    DraftedSnoc(s, items + [Item(0, p, false)], Item(1, p, false));
    assert items + Pair(p) == items + [Item(0, p, false)] + [Item(1, p, false)];
  }

  const IN_STEP_PLAN := [Rebased(KEY)] + [Rebased(FAR)] + [Rebased(NEAR)]

  lemma InStepDraft()
    ensures DraftedAll(Before(map[], map[]), InStepUpToNear()) == Running(map[], map[], IN_STEP_PLAN, 110)
    ensures DraftedAll(Before(map[], map[]), InStepAll()) ==
            Running(map[], map[], IN_STEP_PLAN + [Rebased(NEXT)], 130)
  {
    hide DraftedAll, Drafted, Rebased, Pair;
    var s := Before(map[], map[]);
    assert DraftedAll(s, []) == s by { NoItems(s); }
    assert [] + Pair(KEY) == Pair(KEY);
    DraftedPair(s, [], KEY);
    FirstPairDrafted();
    DraftedPair(s, Pair(KEY), FAR);
    PairDrafted([Rebased(KEY)], 100, FAR);
    DraftedPair(s, Pair(KEY) + Pair(FAR), NEAR);
    PairDrafted([Rebased(KEY)] + [Rebased(FAR)], 120, NEAR);
    DraftedPair(s, InStepUpToNear(), NEXT);
    PairDrafted(IN_STEP_PLAN, 110, NEXT);
  }

  lemma NoItems(s: Core)
    requires s.Shaped()
    ensures DraftedAll(s, []) == s
  {
  }

  // ---- stream by stream

  const ALL_ZERO := Put(Put(Put(Put(map[], KEY), FAR), NEAR), NEXT)
  const BY_STREAM_PLAN := [Rebased(KEY)] + [Rebased(NEAR)] + [Rebased(FAR)] + [Rebased(NEXT)]

  lemma ZeroFirst()
    ensures DraftedAll(Before(map[], map[]), OneStream(0)) == Before(ALL_ZERO, map[])
  {
    hide DraftedAll, Drafted;
    var s := Before(map[], map[]);
    NoItems(s);
    var m1 := Put(map[], KEY);
    var m2 := Put(m1, FAR);
    var m3 := Put(m2, NEAR);
    var i1 := [Item(0, KEY, false)];
    var i2 := i1 + [Item(0, FAR, false)];
    SizePut(map[], KEY);
    SizePut(m1, FAR);
    SizePut(m2, NEAR);
    assert [] + i1 == i1;
    DraftedSnoc(s, [], Item(0, KEY, false));
    DraftBefore(map[], KEY);
    DraftedSnoc(s, i1, Item(0, FAR, false));
    DraftBefore(m1, FAR);
    DraftedSnoc(s, i2, Item(0, NEAR, false));
    DraftBefore(m2, NEAR);
    DraftedSnoc(s, i2 + [Item(0, NEAR, false)], Item(0, NEXT, false));
    DraftBefore(m3, NEXT);
  }

  lemma ZeroKeys()
    ensures ALL_ZERO.Keys == {100, 110, 120, 130} && |ALL_ZERO| == 4
    ensures ALL_ZERO[100] == KEY && ALL_ZERO[110] == NEAR && ALL_ZERO[120] == FAR && ALL_ZERO[130] == NEXT
  {
    assert |ALL_ZERO| == |ALL_ZERO.Keys|;
  }

  /** The start is written; the next frame of stream 0 is still missing in stream 1. */
  lemma OneKey()
    ensures Drafted(Before(ALL_ZERO, map[]), Item(1, KEY, false)) ==
            Running(ALL_ZERO - {100}, map[], [Rebased(KEY)], 100)
  {
    hide FlushDrafted, Drafted, Rebased, NextRound;
    ZeroKeys();
    var n := Put(map[], KEY);
    Alone(KEY);
    DraftStarts(ALL_ZERO);
    NextIs(ALL_ZERO, n, 100);
    OneRound(ALL_ZERO, n, [], 0, 100);
    assert [] + [Rebased(KEY)] == [Rebased(KEY)];
    NextIs(ALL_ZERO - {100}, map[], 110);
    Quiet(ALL_ZERO - {100}, map[], [Rebased(KEY)], 100);
  }

  lemma OneFar()
    ensures Drafted(Running(ALL_ZERO - {100}, map[], [Rebased(KEY)], 100), Item(1, FAR, false)) ==
            Running(ALL_ZERO - {100}, Put(map[], FAR), [Rebased(KEY)], 100)
  {
    hide FlushDrafted, Drafted, Rebased, NextRound;
    ZeroKeys();
    var m := ALL_ZERO - {100};
    assert |m| == |m.Keys| && m.Keys == {110, 120, 130};
    DraftRunning(m, map[], [Rebased(KEY)], 100, 1, FAR);
    NextIs(m, Put(map[], FAR), 110);
    Quiet(m, Put(map[], FAR), [Rebased(KEY)], 100);
  }

  /** Two rounds at once: the frame shown earlier was decoded later. */
  lemma OneNear()
    ensures Drafted(Running(ALL_ZERO - {100}, Put(map[], FAR), [Rebased(KEY)], 100), Item(1, NEAR, false)) ==
            Running(Put(map[], NEXT), map[], [Rebased(KEY)] + [Rebased(NEAR)] + [Rebased(FAR)], 120)
  {
    hide FlushDrafted, Drafted, Rebased, NextRound;
    ZeroKeys();
    var m, n := ALL_ZERO - {100}, Put(map[], FAR);
    assert |m| == |m.Keys| && m.Keys == {110, 120, 130};
    SizePut(map[], FAR);
    DraftRunning(m, n, [Rebased(KEY)], 100, 1, NEAR);
    var n' := Put(n, NEAR);
    NextIs(m, n', 110);
    OneRound(m, n', [Rebased(KEY)], 100, 110);
    assert n' - {110} == n;
    NextIs(m - {110}, n, 120);
    OneRound(m - {110}, n, [Rebased(KEY)] + [Rebased(NEAR)], 110, 120);
    Alone(FAR);
    assert m - {110} - {120} == Put(map[], NEXT);
    NextIs(Put(map[], NEXT), map[], 130);
    Quiet(Put(map[], NEXT), map[], [Rebased(KEY)] + [Rebased(NEAR)] + [Rebased(FAR)], 120);
  }

  lemma OneNext()
    ensures Drafted(Running(Put(map[], NEXT), map[], [Rebased(KEY)] + [Rebased(NEAR)] + [Rebased(FAR)], 120),
                    Item(1, NEXT, false)) ==
            Running(map[], map[], BY_STREAM_PLAN, 130)
  {
    hide FlushDrafted, Drafted, Rebased, NextRound;
    var plan, m := [Rebased(KEY)] + [Rebased(NEAR)] + [Rebased(FAR)], Put(map[], NEXT);
    Alone(NEXT);
    SizePut(map[], NEXT);
    DraftRunning(m, map[], plan, 120, 1, NEXT);
    NextIs(m, m, 130);
    OneRound(m, m, plan, 120, 130);
    Exhausted(map[], plan + [Rebased(NEXT)], 130);
  }

  lemma ByStreamDraft()
    ensures DraftedAll(Before(map[], map[]), ByStream()) == Running(map[], map[], BY_STREAM_PLAN, 130)
  {
    hide DraftedAll, Drafted, Rebased;
    var s := Before(map[], map[]);
    ZeroFirst();
    var i0 := OneStream(0);
    var i1 := i0 + [Item(1, KEY, false)];
    var i2 := i1 + [Item(1, FAR, false)];
    var i3 := i2 + [Item(1, NEAR, false)];
    DraftedSnoc(s, i0, Item(1, KEY, false));
    OneKey();
    DraftedSnoc(s, i1, Item(1, FAR, false));
    OneFar();
    DraftedSnoc(s, i2, Item(1, NEAR, false));
    OneNear();
    DraftedSnoc(s, i3, Item(1, NEXT, false));
    OneNext();
    assert i3 + [Item(1, NEXT, false)] == ByStream();
  }

  // ---- the three endings

  lemma RebasedMeaning(p: Packet)
    requires p.tbNum == 1 && p.tbDen == 1000 && p.size > 0
    ensures var o := Rebased(p);
            o.dts == p.dts - 100 && o.cts == p.cts && Writable(o) && o.tbNum == 1 && o.tbDen == 1000
  {
    OutputMeaning(p, 100, 100);
  }

  /** In this file, the muxed DTS is the rebased one. */
  lemma MuxedIsRebased(p: Packet)
    requires p.tbNum == 1 && p.tbDen == 1000 && p.size > 0
    ensures var w := OpenedWriter(FILE).Anchored(Rebased(KEY));
            Usable(w) && w.origin.Some? && Writable(Rebased(p)) && MuxedDts(w, Rebased(p)) == p.dts - 100
  {
    hide Output, RescaleQ;
    RebasedMeaning(p);
    FirstOutput(KEY, 100);
    RescaleSame(p.dts - 100, FILE.tick);
  }

  /** A plan of the given frames fits the file exactly if their DTS values never decrease. */
  lemma PlanFits(frames: seq<Packet>, plan: seq<Packet>)
    requires 0 < |frames| == |plan| < 100 && frames[0] == KEY
    requires forall k :: 0 <= k < |frames| ==>
               plan[k] == Rebased(frames[k]) && frames[k].tbNum == 1 && frames[k].tbDen == 1000 && frames[k].size > 0
    ensures Fits(FILE, plan) <==> forall k :: 0 < k < |frames| ==> frames[k - 1].dts <= frames[k].dts
  {
    hide Rebased, Writable, MuxedDts;
    forall k | 0 <= k < |frames|
      ensures var w := OpenedWriter(FILE).Anchored(plan[0]);
              Usable(w) && w.origin.Some? && Writable(plan[k]) && MuxedDts(w, plan[k]) == frames[k].dts - 100
    {
      MuxedIsRebased(frames[k]);
    }
  }

  function InStepFrames(): seq<Packet> {
    [KEY] + [FAR] + [NEAR] + [NEXT]
  }

  lemma InStepFits()
    ensures Fits(FILE, IN_STEP_PLAN) && Fits(FILE, IN_STEP_PLAN + [Rebased(NEXT)])
  {
    hide Rebased;
    PlanFits([KEY] + [FAR] + [NEAR], IN_STEP_PLAN);
    PlanFits(InStepFrames(), IN_STEP_PLAN + [Rebased(NEXT)]);
  }

  lemma ByStreamDoesNotFit()
    ensures !Fits(FILE, BY_STREAM_PLAN)
  {
    hide Rebased, Fits;
    var frames := [KEY] + [NEAR] + [FAR] + [NEXT];
    PlanFits(frames, BY_STREAM_PLAN);
    assert frames[2].dts < frames[1].dts;
  }

  lemma Endings()
    ensures Ending(Before(map[], map[]), Running(map[], map[], IN_STEP_PLAN, 110)) ==
            Outcome(false, 100, 110, 3, Some(LiveRecorderModel.RangeMismatch))
    ensures Ending(Before(map[], map[]), Running(map[], map[], IN_STEP_PLAN + [Rebased(NEXT)], 130)) ==
            Outcome(true, 100, 130, 4, None)
    ensures Ending(Before(map[], map[]), Running(map[], map[], BY_STREAM_PLAN, 130)) == Reported(WriteFailed)
  {
    hide Output, Fits;
    InStepFits();
    ByStreamDoesNotFit();
    RebasedMeaning(KEY);
    RebasedMeaning(FAR);
    RebasedMeaning(NEAR);
    RebasedMeaning(NEXT);
    assert Rebased(FAR) in IN_STEP_PLAN;
  }

  lemma ReadyToReorder()
    ensures Ready(Before(map[], map[]))
  {
  }

  lemma RunOfItems(s: Core, items: seq<Item>)
    requires Ready(s) && |s.pending| == 2 && |items| < 10 && forall a :: 0 <= a < |items| ==> items[a].stream < 2
    ensures Completed(After(s, Schedule(items))) && Offered(Schedule(items), 2) == items
    ensures After(s, Schedule(items)).outcome == Some(Ending(s, DraftedAll(s, items)))
  {
    hide After, Schedule, Offered, DraftedAll, Ending, Completed, Unused;
    ScheduleCompletes(s, items);
    RunExactly(s, Schedule(items));
  }

  /** Frames in decode order, the same in both streams, both headers there from the beginning. Delivered in step, they
      are recorded completely, although their DTS values decrease along the CTS; without the last one, the files do not
      end with the last round. Delivered one stream after the other, writing fails. */
  lemma ReorderedRuns()
    ensures var s, x, y, z := Before(map[], map[]), Schedule(InStepAll()), Schedule(InStepUpToNear()),
                              Schedule(ByStream());
            && Ready(s) && SameStreams(Offered(x, 2), Offered(z, 2))
            && Completed(After(s, x)) && Completed(After(s, y)) && Completed(After(s, z))
            && After(s, x).outcome == Some(Outcome(true, 100, 130, 4, None))
            && After(s, y).outcome == Some(Outcome(false, 100, 110, 3, Some(LiveRecorderModel.RangeMismatch)))
            && After(s, z).outcome == Some(Reported(WriteFailed))
  {
    hide After, Schedule, Offered, DraftedAll, Ending, Completed, Ready, Rebased, SameStreams;
    var s := Before(map[], map[]);
    ReadyToReorder();
    SameFrames();
    RunOfItems(s, InStepAll());
    RunOfItems(s, InStepUpToNear());
    RunOfItems(s, ByStream());
    InStepDraft();
    ByStreamDraft();
    Endings();
  }

  /** Both deliveries offer the same packets of each stream in the same order. */
  lemma SameFrames()
    ensures SameStreams(InStepAll(), ByStream())
  {
    forall i: nat ensures Of(InStepAll(), i) == Of(ByStream(), i) {
      InStepStreams(i);
      OfConcat(OneStream(0), OneStream(1), i);
      OfOneStream(0, i);
      OfOneStream(1, i);
    }
  }

  lemma {:induction false} OfConcat(x: seq<Item>, y: seq<Item>, i: nat)
    ensures Of(x + y, i) == Of(x, i) + Of(y, i)
  {
    if |y| == 0 {
      assert x + y == x;
    } else {
      var n := |y| - 1;
      assert x + y == x + y[..n] + [y[n]];
      OfSnoc(x + y[..n], y[n], i);
      OfConcat(x, y[..n], i);
    }
  }

  lemma OfOneStream(stream: nat, i: nat)
    ensures Of(OneStream(stream), i) == if i == stream then OneStream(stream) else []
  {
    var a, b, c, d := Item(stream, KEY, false), Item(stream, FAR, false), Item(stream, NEAR, false),
                      Item(stream, NEXT, false);
    assert [] + [a] == [a];
    OfSnoc([], a, i);
    OfSnoc([a], b, i);
    OfSnoc([a] + [b], c, i);
    OfSnoc([a] + [b] + [c], d, i);
  }

  lemma OfPair(items: seq<Item>, p: Packet, i: nat)
    ensures Of(items + Pair(p), i) == if i < 2 then Of(items, i) + [Item(i, p, false)] else Of(items, i)
  {
    assert items + Pair(p) == items + [Item(0, p, false)] + [Item(1, p, false)];
    OfSnoc(items, Item(0, p, false), i);
    OfSnoc(items + [Item(0, p, false)], Item(1, p, false), i);
  }

  lemma InStepStreams(i: nat)
    ensures Of(InStepAll(), i) == if i < 2 then OneStream(i) else []
  {
    hide Pair, Of;
    NoneOf(i);
    assert [] + Pair(KEY) == Pair(KEY);
    OfPair([], KEY, i);
    OfPair(Pair(KEY), FAR, i);
    OfPair(Pair(KEY) + Pair(FAR), NEAR, i);
    OfPair(InStepUpToNear(), NEXT, i);
  }

  lemma NoneOf(i: nat)
    ensures Of([], i) == []
  {
  }
}
