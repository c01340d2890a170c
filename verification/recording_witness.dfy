/** Two concrete runs that show where the recording session departs from its documented behaviour. */
module RecordingWitness {
  import opened Packets
  import opened DecodeOrder
  import opened PacketBuffer
  import opened CommonRange
  import opened PacketSinks
  import opened RecordingModel
  import opened RecordingTheorems

  function Frame(cts: nat, keyframe: bool): Packet {
    Packet(cts, cts, cts, 1, 1, keyframe, 1)
  }

  function Settings(safety: nat, step: nat): Config {
    Config(100, 100, safety, step, 0)
  }

  lemma RunSnoc(s: Session, config: Config, events: seq<Event>, event: Event)
    ensures Run(s, config, events + [event]) == After(Run(s, config, events), config, event)
  {
    assert (events + [event])[..|events|] == events;
  }

  lemma Single(p: Packet, c: int)
    ensures From([p], c) == if p.cts >= c then [p] else []
    ensures UpTo([p], c) == if p.cts <= c then [p] else []
    ensures Insert([], p) == [p] && SizeOf([p]) == p.size && DecodeSort([p]) == [p]
  {
    FromSnoc([], p, c);
    UpToSnoc([], p, c);
    assert [] + [p] == [p];
    assert [p][..0] == [];
  }

  /** A session in which stream A, then stream B, has delivered the first frame, and nothing else. */
  ghost function OneFrame(config: Config): Session {
    var s := Started(Initial(config, 10, 10), 100);
    Submitted(s, config, A, Frame(100, true))
  }

  lemma OneFrameIs(config: Config)
    requires config.preRollCapacity == 100
    ensures var s := Started(Initial(config, 10, 10), 100);
            OneFrame(config) == s.(a := s.a.(store := Buffer([Frame(100, true)], 1, 1, 100), maxCts := 100,
                                             accepted := [Frame(100, true)]))
  {
    hide StableFlushed, FlushedThrough, From, UpTo, DecodeSort;
    Single(Frame(100, true), 100);
    var t := OneFrame(config);
    assert NoCommonStart([Frame(100, true)], [], 100);
  }

  ghost function TwoFrames(config: Config): Session {
    Submitted(OneFrame(config), config, B, Frame(100, true))
  }

  /** The lane of a stream that holds its first frame, opened and not yet flushed. */
  function FirstLane(): Lane {
    Lane(Buffer([Frame(100, true)], 1, 1, 100), 100, Sink(Some(100), [], None, None, false, 9), [Frame(100, true)])
  }

  ghost function JustOpened(config: Config): Session {
    Session(Running, Failure.NoFailure, 100, 0, config.expectedStep, None, Some(Range(100, 100)),
            FirstLane(), FirstLane())
  }

  lemma TwoFramesIs(config: Config)
    requires config == Settings(config.reorderSafety, config.expectedStep)
    ensures TwoFrames(config) == StableFlushed(JustOpened(config), config.reorderSafety)
  {
    hide StableFlushed, FlushedThrough, From, UpTo, DecodeSort, SizeOf, Insert;
    var p := Frame(100, true);
    OneFrameIs(config);
    Single(p, 100);
    assert KeyframeAt([p], 100);
    CommonStartIs([p], [p], 100, 100);
    assert FirstStep([p], 100) == 0;
  }

  lemma OneSelected(p: Packet, start: nat, upper: nat, step: nat)
    requires start <= p.cts <= upper
    ensures PrefixEnd([p], [p], start, upper, step) == Some(p.cts)
    ensures PrefixEnd([p], [], start, upper, step) == None
  {
    hide From;
    Single(p, start);
    FromNone([], start);
    PrefixLengthIs(CtsOf([p]), CtsOf([p]), upper, step, 1);
    PrefixLengthIs(CtsOf([p]), CtsOf([]), upper, step, 0);
  }

  /** One stored frame in each stream, at the watermark: it is committed, whatever was committed before. */
  lemma CommitsSingle(s: Session, p: Packet, safety: nat)
    requires s.state == Running && s.range.Some? && s.step != 0
    requires s.a.store.packets == [p] == s.b.store.packets
    requires s.a.maxCts == p.cts == s.b.maxCts && s.range.value.start + safety <= p.cts
    requires s.flushed.Some? ==> s.flushed.value < p.cts
    requires s.a.sink.budget > 1 && s.b.sink.budget > 1 && safety == 0
    ensures var t := StableFlushed(s, safety);
            && t.state == Running && t.flushed == Some(p.cts) && t.step == s.step && t.range == s.range
            && t.a.sink.written == s.a.sink.written + [p] && t.a.sink.budget == s.a.sink.budget - 2
            && t.b.sink.written == s.b.sink.written + [p] && t.b.sink.budget == s.b.sink.budget - 2
            && t.a.store == s.a.store.(packets := [], bytes := 0) && t.a.maxCts == p.cts
            && t.b.store == s.b.store.(packets := [], bytes := 0) && t.b.maxCts == p.cts
  {
    hide From, UpTo, DecodeSort, PrefixEnd;
    OneSelected(p, s.range.value.start, p.cts, s.step);
    Single(p, Frontier(s));
    Single(p, p.cts);
    Single(p, p.cts + 1);
    assert Contained([p], [p]);
  }

  function GapEvents(): seq<Event> {
    [Start(100), Submit(A, Frame(100, true)), Submit(B, Frame(100, true)),
     Submit(A, Frame(130, false)), Submit(B, Frame(130, false))]
  }

  /** The frames 110 and 120 are missing from both streams of a session whose cadence is configured as 10.
      The prefix test is documented to hold back later frames; the session commits frame 130 all the same. */
  lemma SharedGapIsCommitted()
    ensures var s := Reached(Settings(0, 10), 10, 10, GapEvents());
            && s.state == Running && s.step == 10 && s.flushed == Some(130)
            && CtsOf(s.a.sink.written) == [100, 130] == CtsOf(s.b.sink.written)
  {
    hide From, UpTo, DecodeSort, PrefixEnd, Insert, SizeOf, Established, Committed, StableFlushed;
    var config, p, q := Settings(0, 10), Frame(100, true), Frame(130, false);
    TwoFramesIs(config);
    CommitsSingle(JustOpened(config), p, 0);
    var s := TwoFrames(config);
    Single(q, 130);
    var t := Submitted(s, config, A, q);
    assert t == s.(a := t.a) && t.a.store.packets == [q] && t.a.sink == s.a.sink && t.a.maxCts == 130 by {
      WaitsForOther(WithLane(s, A, Accepting(s.a, q)), q);
    }
    CommitsSingle(WithLane(t, B, Accepting(t.b, q)), q, 0);
    RunIs5(Settings(0, 10), GapEvents());
    assert [] + [p] + [q] == [p, q];
  }

  lemma WaitsForOther(s: Session, q: Packet)
    requires s.range == Some(Range(100, 100)) && s.step != 0 && s.b.maxCts == 100 && s.a.maxCts == 130
    requires s.a.store.packets == [q] && s.b.store.packets == [] && q.cts == 130
    ensures StableFlushed(s, 0) == s
  {
    hide From, FlushedThrough;
    FromNone([], 100);
    PrefixLengthIs(CtsOf(From([q], 100)), CtsOf([]), 100, s.step, 0);
  }

  lemma RunIs5(config: Config, e: seq<Event>)
    requires |e| == 5
    ensures Run(Initial(config, 10, 10), config, e) ==
            After(After(After(After(After(Initial(config, 10, 10), config, e[0]), config, e[1]), config, e[2]),
                        config, e[3]), config, e[4])
  {
    hide After;
    var s := Initial(config, 10, 10);
    assert e == [] + [e[0]] + [e[1]] + [e[2]] + [e[3]] + [e[4]];
    RunSnoc(s, config, [], e[0]);
    RunSnoc(s, config, [] + [e[0]], e[1]);
    RunSnoc(s, config, [] + [e[0]] + [e[1]], e[2]);
    RunSnoc(s, config, [] + [e[0]] + [e[1]] + [e[2]], e[3]);
    RunSnoc(s, config, [] + [e[0]] + [e[1]] + [e[2]] + [e[3]], e[4]);
  }

  // ---- a cadence inferred too late

  function LateEvents(): seq<Event> {
    [Start(100), Submit(A, Frame(100, true)), Submit(B, Frame(100, true)), RequestStop(130)] +
    [Submit(A, Frame(110, false)), Submit(A, Frame(130, false)),
     Submit(B, Frame(110, false)), Submit(B, Frame(130, false))]
  }

  function ThreeFrames(): seq<Packet> {
    [Frame(100, true), Frame(110, false), Frame(130, false)]
  }

  ghost function Stored(config: Config): Session {
    var lane := Lane(Buffer(ThreeFrames(), 3, 3, 100), 130, Sink(Some(100), [], None, None, false, 9), ThreeFrames());
    Session(Draining, Failure.NoFailure, 100, 130, config.expectedStep, None, Some(Range(100, 100)), lane, lane)
  }

  lemma PushLater(s: Session, config: Config, stream: Stream, q: Packet)
    requires s.state == Draining && s.range == Some(Range(100, 100)) && s.flushed.None?
    requires var lane := LaneOf(s, stream);
             && lane.store.packets == lane.accepted && lane.store.bytes < lane.store.capacity
             && lane.store.bytes == lane.store.peak
             && |lane.accepted| > 0 && (forall p :: p in lane.accepted ==> p.cts < q.cts)
             && lane.maxCts < q.cts && q.cts >= 100
    requires q.tbNum > 0 && q.tbDen > 0 && q.size == 1
    ensures var lane := LaneOf(s, stream);
            Submitted(s, config, stream, q) ==
            WithLane(s, stream, lane.(store := Buffer(lane.accepted + [q], lane.store.bytes + 1, lane.store.peak + 1,
                                                    lane.store.capacity),
                                      maxCts := q.cts, accepted := lane.accepted + [q]))
  {
    hide From;
    InsertAbove(LaneOf(s, stream).accepted, q);
  }

  lemma LateRun(config: Config)
    requires config == Settings(1000, 0)
    ensures Run(Initial(config, 10, 10), config, LateEvents()) == Stored(config)
  {
    hide From, UpTo, DecodeSort, PrefixEnd, Insert, SizeOf, Established, Committed, After;
    var p, q, r := Frame(100, true), Frame(110, false), Frame(130, false);
    TwoFramesIs(config);
    Single(p, 100);
    var s := TwoFrames(config);
    assert s == JustOpened(config);
    var t := StopRequested(s, 130);
    PushLater(t, config, A, q);
    var t1 := Submitted(t, config, A, q);
    PushLater(t1, config, A, r);
    var t2 := Submitted(t1, config, A, r);
    PushLater(t2, config, B, q);
    var t3 := Submitted(t2, config, B, q);
    PushLater(t3, config, B, r);
    assert [p] + [q] + [r] == ThreeFrames();
    LateSteps(config);
  }

  lemma LateSteps(config: Config)
    ensures Run(Initial(config, 10, 10), config, LateEvents()) ==
            var t := StopRequested(TwoFrames(config), 130);
            var u := Submitted(Submitted(t, config, A, Frame(110, false)), config, A, Frame(130, false));
            Submitted(Submitted(u, config, B, Frame(110, false)), config, B, Frame(130, false))
  {
    hide Submitted, StopRequested;
    var s, e := Initial(config, 10, 10), LateEvents();
    var e5, e6, e7, e8 := e[..5], e[..6], e[..7], e[..8];
    assert e == e8 == e7 + [e[7]] && e7 == e6 + [e[6]] && e6 == e5 + [e[5]] && e5 == e[..4] + [e[4]];
    RunSnoc(s, config, e7, e[7]);
    RunSnoc(s, config, e6, e[6]);
    RunSnoc(s, config, e5, e[5]);
    RunSnoc(s, config, e[..4], e[4]);
    assert e[..4] == [] + [e[0]] + [e[1]] + [e[2]] + [e[3]];
    RunSnoc(s, config, [], e[0]);
    RunSnoc(s, config, [] + [e[0]], e[1]);
    RunSnoc(s, config, [] + [e[0]] + [e[1]], e[2]);
    RunSnoc(s, config, [] + [e[0]] + [e[1]] + [e[2]], e[3]);
  }

  /** Without a configured cadence, a drain can fail with `RangeMismatch`: the candidate 130 is selected before
      the cadence 10 is inferred from the drained frames, and re-selected after. */
  lemma LateInferenceMismatches()
    ensures var s := Reached(Settings(1000, 0), 10, 10, LateEvents() + [CompleteDrain]);
            s.state == Failed && s.failure == RangeMismatch
  {
    hide From, UpTo, Drained, PrefixEnd, Run, PrefixLength;
    var config, x := Settings(1000, 0), ThreeFrames();
    LateRun(config);
    var s := Stored(config);
    InitialInv(config, 10, 10);
    RunKeepsInv(Initial(config, 10, 10), config, LateEvents());
    RunSnoc(Initial(config, 10, 10), config, LateEvents(), CompleteDrain);
    FromAll(x, 100);
    PrefixLengthIs(CtsOf(x), CtsOf(x), 130, 0, 3);
    assert InferredStep(s) == 10;
    var run := Leftover(s);
    assert run == CtsOf(x);
    assert !OnCadence(run[1], run[2], 10);
    DrainOutcome(s, config);
  }
}
