/** Two schedules of the same streams that end differently: the codec header of one stream arrives with a packet
    behind the start. */
module LiveRecorderWitness {
  import opened Packets
  import opened MkvWriter
  import opened LiveRecorderModel
  import opened LiveRecorderSchedule
  import opened LiveRecorderOutcome
  import opened LiveRecorderMeaning
  import opened LiveRecorderRounds
  import opened LiveRecorderVerdict

  // ---- a schedule that offers everything, stops and lets the worker run to its end

  function Offers(items: seq<Item>): (steps: seq<Step>) {
    if |items| == 0 then [] else Offers(items[..|items| - 1]) + [Enqueue(items[|items| - 1])]
  }

  function WithTurns(steps: seq<Step>, n: nat): (r: seq<Step>) {
    if n == 0 then steps else WithTurns(steps, n - 1) + [Work]
  }

  function Schedule(items: seq<Item>): seq<Step> {
    WithTurns(Offers(items) + [Stop], |items| + 1)
  }

  lemma StepAdded(s: Core, steps: seq<Step>, step: Step)
    requires s.Shaped()
    ensures After(s, steps + [step]) == Stepped(After(s, steps), step)
    ensures HasStop(steps + [step]) <==> HasStop(steps) || step.Stop?
    ensures Offered(steps + [step], |s.pending|) ==
            if step.Enqueue? && !HasStop(steps) && step.item.stream < |s.pending|
            then Offered(steps, |s.pending|) + [step.item] else Offered(steps, |s.pending|)
  {
    assert (steps + [step])[..|steps|] == steps;
  }

  /** Every packet is still queued, and the worker has not begun. */
  ghost predicate Queued(s: Core, items: seq<Item>)
    requires s.Shaped()
  {
    var steps := Offers(items);
    && After(s, steps) == Recorder(s, items, true, false, None)
    && Offered(steps, |s.pending|) == items && !HasStop(steps)
  }

  lemma QueueNext(s: Core, items: seq<Item>, last: Item)
    requires s.Shaped() && s.error.None? && |items| < MAX_QUEUE_PACKETS && last.stream < |s.pending| && Queued(s, items)
    ensures Queued(s, items + [last])
  {
    hide After, Offered, HasStop;
    StepAdded(s, Offers(items), Enqueue(last));
    assert Offers(items + [last]) == Offers(items) + [Enqueue(last)] by {
      assert (items + [last])[..|items|] == items;
    }
    hide Offers;
  }

  lemma {:induction false} OffersQueue(s: Core, items: seq<Item>)
    requires s.Shaped() && s.error.None? && |items| <= MAX_QUEUE_PACKETS
    requires forall a :: 0 <= a < |items| ==> items[a].stream < |s.pending|
    ensures Queued(s, items)
  {
    if |items| == 0 {
      NothingDone(s);
    } else {
      hide Queued;
      var init, last := items[..|items| - 1], items[|items| - 1];
      assert forall a :: 0 <= a < |init| ==> init[a] == items[a];
      OffersQueue(s, init);
      QueueNext(s, init, last);
      assert init + [last] == items;
    }
  }

  lemma NothingDone(s: Core)
    requires s.Shaped()
    ensures After(s, []) == Recorder(s, [], true, false, None) && Offered([], |s.pending|) == [] && !HasStop([])
  {
  }

  /** Every turn of a stopped worker either takes one packet or ends the recording. */
  lemma {:induction false} WorkersRun(s: Core, steps: seq<Step>, n: nat)
    requires s.Shaped() && HasStop(steps) && After(s, steps).running && After(s, steps).stopping
    ensures var r := After(s, WithTurns(steps, n));
            r.running ==> r.stopping && |r.queue| + n <= |After(s, steps).queue|
    ensures Offered(WithTurns(steps, n), |s.pending|) == Offered(steps, |s.pending|)
  {
    hide Drained, Processed, ClosedFrom, OutcomeOf;
    if n > 0 {
      WorkersRun(s, steps, n - 1);
      StepAdded(s, WithTurns(steps, n - 1), Work);
    }
  }

  lemma {:induction false} NeverQueueOverflow(s: Core, steps: seq<Step>, n: nat)
    requires s.Shaped() && NoOverflow(After(s, steps))
    ensures NoOverflow(After(s, WithTurns(steps, n)))
  {
    hide NoOverflow;
    if n > 0 {
      NeverQueueOverflow(s, steps, n - 1);
      StepAdded(s, WithTurns(steps, n - 1), Work);
      WorkNeverOverflows(After(s, WithTurns(steps, n - 1)));
    }
  }

  ghost predicate NoOverflow(r: Recorder) {
    if r.running then r.core.error != Some(QueueOverflow)
    else r.outcome.Some? && r.outcome.value.error != Some(QueueOverflow)
  }

  lemma WorkNeverOverflows(r: Recorder)
    requires r.core.Shaped() && NoOverflow(r)
    ensures NoOverflow(Worked(r))
  {
    hide Processed, Settled;
    if r.running {
      if r.core.error.None? {
        SettleShrinks(r.core);
        if |r.queue| > 0 { NoQueueOverflow(r.core, r.queue[0]); }
      }
      CloseKeeps(Drained(r.core), 0);
    }
  }

  /** A schedule within the bounds completes. */
  lemma ScheduleCompletes(s: Core, items: seq<Item>)
    requires Blank(s) && |items| <= MAX_QUEUE_PACKETS
    requires forall a :: 0 <= a < |items| ==> items[a].stream < |s.pending|
    ensures Completed(After(s, Schedule(items))) && Offered(Schedule(items), |s.pending|) == items
  {
    hide ProcessedAll;
    var steps := Offers(items) + [Stop];
    OffersQueue(s, items);
    StepAdded(s, Offers(items), Stop);
    WorkersRun(s, steps, |items| + 1);
    NeverQueueOverflow(s, steps, |items| + 1);
  }

  // ---- the two schedules

  function Frame(cts: nat, keyframe: bool): Packet {
    Packet(cts, cts, cts, 1, 1000, keyframe, 1)
  }

  const FIRST := Item(0, Frame(100, true), false)
  const HEADER := Item(0, Frame(110, false), true)
  const OTHER := Item(1, Frame(100, true), true)
  const LAST := Item(1, Frame(110, false), false)

  function Start(): Core {
    var w := Writer(false, 0, 0, None, None, None, 0, [], None, 100, Timebase(1, 1000));
    var config := StreamConfig(true, 1, 1000, false);
    Core([map[], map[]], [config, config], [w, w], [0, 0], false, 0, 0, 0, None, [{}, {}], [{}, {}])
  }

  /** The two streams with the given packets; a header has come for the streams marked. */
  function Placed(m: map<nat, Packet>, n: map<nat, Packet>, header: bool, header': bool): Core {
    var s := Start();
    s.(pending := [m, n],
       configs := [s.configs[0].(header := header), s.configs[1].(header := header')])
  }

  lemma InsertZero(m: map<nat, Packet>, n: map<nat, Packet>, h: bool, h': bool, item: Item)
    requires item.stream == 0 && item.packet.cts !in m
    ensures Inserted(Placed(m, n, h, h'), item) == Placed(Put(m, item.packet), n, h || item.header, h')
  {
    var t := Inserted(Placed(m, n, h, h'), item);
    assert t.pending == [Put(m, item.packet), n];
    assert t.configs == Placed(Put(m, item.packet), n, h || item.header, h').configs;
  }

  lemma InsertOne(m: map<nat, Packet>, n: map<nat, Packet>, h: bool, h': bool, item: Item)
    requires item.stream == 1 && item.packet.cts !in n
    ensures Inserted(Placed(m, n, h, h'), item) == Placed(m, Put(n, item.packet), h, h' || item.header)
  {
    var t := Inserted(Placed(m, n, h, h'), item);
    assert t.pending == [m, Put(n, item.packet)];
    assert t.configs == Placed(m, Put(n, item.packet), h, h' || item.header).configs;
  }

  lemma PlacedSnoc(items: seq<Item>, item: Item)
    ensures InsertedAll(Start(), items + [item]) == Inserted(InsertedAll(Start(), items), item)
  {
    assert (items + [item])[..|items|] == items;
  }

  lemma TimelySnoc(items: seq<Item>, item: Item)
    ensures Timely(Start(), items + [item]) <==>
              Timely(Start(), items) && TimelyHeader(InsertedAll(Start(), items), item)
  {
    assert (items + [item])[..|items|] == items;
  }

  const EARLY := [FIRST] + [HEADER] + [OTHER] + [LAST]
  const LATE := [FIRST] + [OTHER] + [HEADER] + [LAST]

  const ZERO := Put(Put(map[], FIRST.packet), HEADER.packet)
  const ONE := Put(Put(map[], OTHER.packet), LAST.packet)

  lemma NothingCommon(s: Core)
    requires |s.pending| == 2 && s.pending[1] == map[]
    ensures Election(s.pending) == None
  {
    assert forall c: nat :: !KeyInAll(s.pending, c) by {
      forall c: nat ensures !KeyInAll(s.pending, c) { assert c !in s.pending[1]; }
    }
    assert CommonKeys(s.pending) == {};
  }

  lemma CommonAt100(pending: seq<map<nat, Packet>>)
    requires |pending| == 2 && pending[0].Keys <= {100, 110} && pending[1].Keys <= {100, 110}
    requires 100 in pending[0] && pending[0][100].keyframe && 100 in pending[1] && pending[1][100].keyframe
    ensures Election(pending) == Some(100)
  {
    assert KeyInAll(pending, 100);
    assert 100 in CommonKeys(pending);
    forall c | c in CommonKeys(pending) ensures 100 <= c {
      assert c in pending[0];
    }
    LeastIs(CommonKeys(pending), 100);
  }

  /** The header of stream 0 comes before the other stream delivers the start. */
  lemma EarlyIsTimely()
    ensures InsertedAll(Start(), EARLY) == Placed(ZERO, ONE, true, true) && Timely(Start(), EARLY)
  {
    hide Inserted, Election, InsertedAll, Timely;
    StartIsPlaced();
    PlacedSnoc([], FIRST);
    InsertZero(map[], map[], false, false, FIRST);
    PlacedSnoc([FIRST], HEADER);
    InsertZero(Put(map[], FIRST.packet), map[], false, false, HEADER);
    PlacedSnoc([FIRST] + [HEADER], OTHER);
    InsertOne(ZERO, map[], true, false, OTHER);
    PlacedSnoc([FIRST] + [HEADER] + [OTHER], LAST);
    InsertOne(ZERO, Put(map[], OTHER.packet), true, true, LAST);
    assert [] + [FIRST] == [FIRST];
    TimelySnoc([], FIRST);
    TimelySnoc([FIRST], HEADER);
    TimelySnoc([FIRST] + [HEADER], OTHER);
    TimelySnoc([FIRST] + [HEADER] + [OTHER], LAST);
    NothingCommon(Placed(Put(map[], FIRST.packet), map[], false, false));
    NothingCommon(Placed(ZERO, map[], true, false));
  }

  lemma StartIsPlaced()
    ensures InsertedAll(Start(), []) == Placed(map[], map[], false, false) && Timely(Start(), [])
  {
  }

  /** The start is elected while the header of stream 0 is still to come. */
  lemma LateIsUntimely()
    ensures !Timely(Start(), LATE)
  {
    hide Inserted, Election, InsertedAll, Timely;
    StartIsPlaced();
    PlacedSnoc([], FIRST);
    InsertZero(map[], map[], false, false, FIRST);
    PlacedSnoc([FIRST], OTHER);
    InsertOne(Put(map[], FIRST.packet), map[], false, false, OTHER);
    assert [] + [FIRST] == [FIRST];
    CommonAt100(Placed(Put(map[], FIRST.packet), Put(map[], OTHER.packet), false, true).pending);
    TimelySnoc([FIRST] + [OTHER], HEADER);
    TimelySnoc([FIRST] + [OTHER] + [HEADER], LAST);
  }

  lemma BothShared(pending: seq<map<nat, Packet>>)
    requires |pending| == 2 && pending[0].Keys == pending[1].Keys == {100, 110}
    ensures SharedFrom(pending, 100, 100) && SharedFrom(pending, 100, 110) && SameFrom(pending, 100)
    ensures forall c :: SharedFrom(pending, 100, c) ==> c == 100 || c == 110
  {
    assert InAll(pending, 100) && InAll(pending, 110);
  }

  lemma SomeThird(list: seq<nat>)
    requires Increasing(list) && |list| > 2
    ensures exists c :: c in list && c != 100 && c != 110
  {
    assert list[0] in list && list[1] in list && list[2] in list && list[0] < list[1] < list[2];
  }

  lemma PairOf(list: seq<nat>)
    requires Increasing(list) && forall c :: c in list <==> c == 100 || c == 110
    ensures |list| == 2 && list[0] == 100 && list[1] == 110
  {
    assert 100 in list && 110 in list;
    var i, j :| 0 <= i < |list| && list[i] == 100 && 0 <= j < |list| && list[j] == 110;
    assert list[0] in list && list[|list| - 1] in list;
    if |list| > 2 {
      SomeThird(list);
    }
  }

  /** With all packets in place, both streams are recorded completely. */
  lemma PlacedVerdict()
    ensures Verdict(Placed(ZERO, ONE, true, true)) == Outcome(true, 100, 110, 2, None)
  {
    hide Election, Committed, RescaleQ, SharedFrom, SameFrom, InFileOrder;
    var s := Placed(ZERO, ONE, true, true);
    CommonAt100(s.pending);
    ElectedInAll(s.pending, 100);
    CommittedIsShared(s.pending, 100);
    BothShared(s.pending);
    var list := Committed(s.pending, 100);
    PairOf(list);
    forall i | 0 <= i < |s.pending| ensures Recordable(s.writers[i], s.pending[i], list, 100) {
      FileOrderIsDtsOrder(s.pending[i], list, 100, s.writers[i].tick);
    }
  }

  lemma OfSnoc(items: seq<Item>, item: Item, i: nat)
    ensures Of(items + [item], i) == if item.stream == i then Of(items, i) + [item] else Of(items, i)
  {
    assert (items + [item])[..|items|] == items;
  }

  ghost predicate Local(items: seq<Item>) {
    |items| == 4 && Ordered(items) && forall a :: 0 <= a < |items| ==> items[a].stream < 2
  }

  lemma SameItems()
    ensures SameStreams(EARLY, LATE) && Local(EARLY) && Local(LATE)
  {
    forall i: nat ensures Of(EARLY, i) == Of(LATE, i) {
      OfSnoc([FIRST], HEADER, i);
      OfSnoc([FIRST] + [HEADER], OTHER, i);
      OfSnoc([FIRST] + [HEADER] + [OTHER], LAST, i);
      OfSnoc([FIRST], OTHER, i);
      OfSnoc([FIRST] + [OTHER], HEADER, i);
      OfSnoc([FIRST] + [OTHER] + [HEADER], LAST, i);
    }
  }

  /** Two runs that offer the same packets of each stream in the same order and complete within all bounds: one records
      both streams completely, the other fails to open its files. */
  lemma LateHeaderChangesOutcome()
    ensures var s, x, y := Start(), Schedule(EARLY), Schedule(LATE);
            && Ready(s) && SameStreams(Offered(x, 2), Offered(y, 2)) && Ordered(Offered(x, 2)) && Ordered(Offered(y, 2))
            && After(s, x).outcome == Some(Outcome(true, 100, 110, 2, None))
            && After(s, y).outcome == Some(Reported(OpenFailed))
  {
    hide After, Schedule, Offered, Timely, InsertedAll, Verdict, Ordered, ProcessedAll, Election, Completed, EARLY,
         LATE;
    var s := Start();
    SameItems();
    RunOf(EARLY);
    RunOf(LATE);
    EarlyIsTimely();
    LateIsUntimely();
    PlacedVerdict();
  }

  lemma RunOf(items: seq<Item>)
    requires Local(items)
    ensures Offered(Schedule(items), 2) == items
    ensures After(Start(), Schedule(items)).outcome ==
            Some(if Timely(Start(), items) then Verdict(InsertedAll(Start(), items)) else Reported(OpenFailed))
  {
    hide After, Schedule, Offered, Timely, InsertedAll, Verdict, Ordered, ProcessedAll, Election, Completed, HoldsPlan;
    ScheduleCompletes(Start(), items);
    FewNeverOverflow(Start(), items);
    RecordingExactly(Start(), Schedule(items));
  }
}
