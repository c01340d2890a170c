/** The DTS reorder stage in front of a writer: packets wait until the decode watermark passes them, and
    every flush is sorted on its own. The theorem is that the flushes concatenate to one stable sort. */
module MkvSink {
  import opened Packets
  import opened DecodeOrder
  import opened MkvWriter

  const INT64_MAX: int := 0x7FFF_FFFF_FFFF_FFFF
  const INT64_MIN: int := -0x8000_0000_0000_0000

  /** The packets at or below a decode timestamp, in arrival order. */
  function DtsUpTo(s: seq<Packet>, w: int): seq<Packet> {
    if |s| == 0 then []
    else DtsUpTo(s[..|s| - 1], w) + (if s[|s| - 1].dts <= w then [s[|s| - 1]] else [])
  }

  function DtsAfter(s: seq<Packet>, w: int): seq<Packet> {
    if |s| == 0 then []
    else DtsAfter(s[..|s| - 1], w) + (if s[|s| - 1].dts <= w then [] else [s[|s| - 1]])
  }

  /** `arrived` is everything written to the sink, `flushedTo` the last watermark used. */
  datatype Reorder = Reorder(pending: seq<Packet>, pendingBytes: nat, capacity: nat, safety: nat, start: nat,
                             tbNum: int, tbDen: int, maxDts: Option<int>, writer: Writer,
                             arrived: seq<Packet>, flushedTo: Option<int>)
  {
    function Room(): nat {
      capacity - (if pendingBytes <= capacity then pendingBytes else capacity)
    }
  }

  function Offered(s: Reorder, p: Packet): (Reorder, bool) {
    if p.size == 0 || p.size > s.Room() then (s, false)
    else if s.tbNum != 0 && (p.tbNum != s.tbNum || p.tbDen != s.tbDen) then (s, false)
    else
      (s.(tbNum := p.tbNum, tbDen := p.tbDen,
          maxDts := Some(if s.maxDts.Some? && s.maxDts.value >= p.dts then s.maxDts.value else p.dts),
          pendingBytes := s.pendingBytes + p.size, pending := s.pending + [p], arrived := s.arrived + [p]),
       true)
  }

  /** The reorder window in packet ticks. */
  function Window(safety: nat, tbNum: int, tbDen: int): int
    requires tbNum > 0 && tbDen > 0
  {
    RescaleQ(if safety < INT64_MAX then safety else INT64_MAX, 1, NANOSECONDS, tbNum, tbDen)
  }

  function SafetyTicks(s: Reorder): int
    requires s.tbNum > 0 && s.tbDen > 0
  {
    Window(s.safety, s.tbNum, s.tbDen)
  }

  function Mark(s: Reorder): Option<int> {
    if s.maxDts.None? || s.tbNum <= 0 || s.tbDen <= 0 then None
    else if s.maxDts.value <= INT64_MIN + SafetyTicks(s) then None
    else Some(s.maxDts.value - SafetyTicks(s))
  }

  function Flushed(s: Reorder, mark: Option<int>): (Reorder, bool) {
    var selected := if mark.None? then s.pending else DtsUpTo(s.pending, mark.value);
    var remaining := if mark.None? then [] else DtsAfter(s.pending, mark.value);
    var (w, ok) := WrittenAll(s.writer, DecodeSort(selected));
    (s.(pending := remaining, pendingBytes := SizeOf(remaining), writer := w,
        flushedTo := if mark.Some? then mark else s.flushedTo), ok)
  }

  function CommittedThrough(s: Reorder): (Reorder, bool) {
    if Mark(s).None? then (s, true) else Flushed(s, Mark(s))
  }

  function Finalized(s: Reorder, end: nat): (Reorder, bool) {
    var (t, ok) := Flushed(s, None);
    if !ok then (t, false)
    else
      var (w, result) := Closed(t.writer);
      (t.(writer := w), result.success && result.first == s.start && result.last == end)
  }

  // ---- one sort of a list is the sort of its lower part followed by the sort of its upper part

  lemma DtsUpToSnoc(s: seq<Packet>, p: Packet, w: int)
    ensures DtsUpTo(s + [p], w) == if p.dts <= w then DtsUpTo(s, w) + [p] else DtsUpTo(s, w)
  {
    assert (s + [p])[..|s|] == s;
    assert DtsUpTo(s, w) + [] == DtsUpTo(s, w);
  }

  lemma DtsAfterSnoc(s: seq<Packet>, p: Packet, w: int)
    ensures DtsAfter(s + [p], w) == if p.dts <= w then DtsAfter(s, w) else DtsAfter(s, w) + [p]
  {
    assert (s + [p])[..|s|] == s;
    assert DtsAfter(s, w) + [] == DtsAfter(s, w);
  }

  lemma {:induction false} DtsMembers(s: seq<Packet>, w: int)
    ensures forall q :: q in DtsUpTo(s, w) <==> q in s && q.dts <= w
    ensures forall q :: q in DtsAfter(s, w) <==> q in s && q.dts > w
  {
    if |s| > 0 {
      Snoc(s);
      DtsMembers(s[..|s| - 1], w);
    }
  }

  /** Cutting twice is cutting once. */
  lemma {:induction false} DtsCuts(s: seq<Packet>, w: int, w': int)
    requires w <= w'
    ensures DtsUpTo(DtsUpTo(s, w'), w) == DtsUpTo(s, w)
    ensures DtsAfter(DtsUpTo(s, w'), w) == DtsUpTo(DtsAfter(s, w), w')
    ensures DtsAfter(DtsAfter(s, w), w') == DtsAfter(s, w')
  {
    if |s| > 0 {
      var init, last := s[..|s| - 1], s[|s| - 1];
      Snoc(s);
      DtsCuts(init, w, w');
      DtsUpToSnoc(init, last, w);
      DtsUpToSnoc(init, last, w');
      DtsAfterSnoc(init, last, w);
      DtsAfterSnoc(init, last, w');
      DtsUpToSnoc(DtsUpTo(init, w'), last, w);
      DtsAfterSnoc(DtsUpTo(init, w'), last, w);
      DtsUpToSnoc(DtsAfter(init, w), last, w');
      DtsAfterSnoc(DtsAfter(init, w), last, w');
    }
  }

  lemma {:induction false} PlaceLow(x: seq<Packet>, y: seq<Packet>, p: Packet)
    requires forall q :: q in y ==> p.dts < q.dts
    ensures Place(x + y, p) == Place(x, p) + y
  {
    if |y| == 0 {
      assert x + y == x;
    } else {
      var init, last := y[..|y| - 1], y[|y| - 1];
      Snoc(y);
      assert last in y;
      assert (x + y)[..|x + y| - 1] == x + init;
      PlaceLow(x, init, p);
    }
  }

  lemma {:induction false} PlaceHigh(x: seq<Packet>, y: seq<Packet>, p: Packet)
    requires forall q :: q in x ==> q.dts < p.dts
    ensures Place(x + y, p) == x + Place(y, p)
  {
    if |y| == 0 {
      assert x + y == x;
      assert |x| > 0 ==> x[|x| - 1] in x;
    } else {
      var init, last := y[..|y| - 1], y[|y| - 1];
      Snoc(y);
      assert (x + y)[..|x + y| - 1] == x + init;
      if DecodesBefore(p, last) {
        PlaceHigh(x, init, p);
      }
    }
  }

  lemma {:induction false} SortSplits(s: seq<Packet>, w: int)
    ensures DecodeSort(s) == DecodeSort(DtsUpTo(s, w)) + DecodeSort(DtsAfter(s, w))
  {
    if |s| > 0 {
      var init, last := s[..|s| - 1], s[|s| - 1];
      var x, y := DtsUpTo(init, w), DtsAfter(init, w);
      Snoc(s);
      SortSplits(init, w);
      DtsUpToSnoc(init, last, w);
      DtsAfterSnoc(init, last, w);
      SortSnoc(x, last);
      SortSnoc(y, last);
      SortMembers(x);
      SortMembers(y);
      DtsMembers(init, w);
      if last.dts <= w {
        PlaceLow(DecodeSort(x), DecodeSort(y), last);
      } else {
        PlaceHigh(DecodeSort(x), DecodeSort(y), last);
      }
    }
  }

  lemma SortSnoc(s: seq<Packet>, p: Packet)
    ensures DecodeSort(s + [p]) == Place(DecodeSort(s), p)
  {
    assert (s + [p])[..|s|] == s;
  }

  lemma SortMembers(s: seq<Packet>)
    ensures forall q :: q in DecodeSort(s) <==> q in s
  {
    DecodeSortPermutes(s);
    forall q ensures q in DecodeSort(s) <==> q in s {
      assert q in multiset(DecodeSort(s)) <==> q in multiset(s);
    }
  }

  // ---- the streaming invariant

  /** Everything up to the last watermark is written in one sorted order; everything after it waits. */
  ghost predicate Streaming(s: Reorder) {
    && Healthy(s.writer)
    && s.pendingBytes == SizeOf(s.pending)
    && (forall q :: q in s.arrived ==> Writable(q) && s.maxDts.Some? && q.dts <= s.maxDts.value)
    && SameTimebase(s.arrived, s.tbNum, s.tbDen)
    && (s.arrived == [] ==> s.tbNum == 0 && s.flushedTo.None? && s.maxDts.None?)
    && match s.flushedTo
       case None => s.writer.written == [] && s.pending == s.arrived
       case Some(w) =>
         && s.arrived != [] && s.tbNum > 0 && s.tbDen > 0 && s.maxDts.Some? && w + SafetyTicks(s) <= s.maxDts.value
         && s.writer.written == DecodeSort(DtsUpTo(s.arrived, w))
         && s.pending == DtsAfter(s.arrived, w)
  }

  ghost predicate Late(s: Reorder, p: Packet) {
    s.flushedTo.Some? && p.dts <= s.flushedTo.value
  }

  lemma OfferKeepsStreaming(s: Reorder, p: Packet)
    requires Streaming(s) && !Late(s, p) && p.tbNum > 0 && p.tbDen > 0
    ensures var (t, ok) := Offered(s, p);
            && Streaming(t)
            && t.arrived == (if ok then s.arrived + [p] else s.arrived)
  {
    hide DecodeSort, DtsUpTo, DtsAfter, SizeOf, RescaleQ, Healthy;
    SizeSnoc(s.pending, p);
    if s.arrived != [] {
      assert s.arrived[0] in s.arrived;
    }
    if s.flushedTo.Some? {
      DtsUpToSnoc(s.arrived, p, s.flushedTo.value);
      DtsAfterSnoc(s.arrived, p, s.flushedTo.value);
    }
  }

  lemma SizeSnoc(s: seq<Packet>, p: Packet)
    ensures SizeOf(s + [p]) == SizeOf(s) + p.size
  {
    assert (s + [p])[..|s|] == s;
  }

  /** A batch that extends the written packets to one sort of `x` is written, unless the library refuses. */
  lemma FlushBatch(s: Reorder, x: seq<Packet>, batch: seq<Packet>)
    requires Streaming(s) && s.writer.written + DecodeSort(batch) == DecodeSort(x)
    requires forall q :: q in x ==> q in s.arrived
    ensures var (w, ok) := WrittenAll(s.writer, DecodeSort(batch));
            && (ok <==> |batch| <= s.writer.budget)
            && (ok ==> Healthy(w) && w.written == DecodeSort(x) && w.budget == s.writer.budget - |batch|)
            && (!ok ==> w.error == Some(Library))
  {
    hide DecodeSort, DtsUpTo, DtsAfter, SizeOf, Healthy, WrittenAll, Writable;
    DecodeSortIsStable(x);
    DecodeSortPermutes(batch);
    SortMembers(x);
    SortMembers(batch);
    var b := DecodeSort(batch);
    forall q | q in b ensures q in s.arrived {
      assert q in s.writer.written + b;
    }
    DecodeSortedByDts(s.writer.written + b);
    WriteSorted(s.writer, b, s.tbNum, s.tbDen);
  }

  lemma CommitKeepsStreaming(s: Reorder)
    requires Streaming(s)
    ensures var (t, ok) := CommittedThrough(s);
            && t.arrived == s.arrived
            && (ok ==> Streaming(t))
            && (!ok ==> t.writer.error == Some(Library))
  {
    hide DecodeSort, DtsUpTo, DtsAfter, SizeOf, Healthy, WrittenAll, RescaleQ;
    if Mark(s).Some? {
      var w' := Mark(s).value;
      DtsMembers(s.arrived, w');
      match s.flushedTo
      case None =>
        assert [] + DecodeSort(DtsUpTo(s.arrived, w')) == DecodeSort(DtsUpTo(s.arrived, w'));
        FlushBatch(s, DtsUpTo(s.arrived, w'), DtsUpTo(s.pending, w'));
      case Some(w) =>
        DtsCuts(s.arrived, w, w');
        SortSplits(DtsUpTo(s.arrived, w'), w);
        FlushBatch(s, DtsUpTo(s.arrived, w'), DtsUpTo(s.pending, w'));
    }
  }

  /** The final flush completes one stable sort of everything the sink was given. */
  lemma FinalFlush(s: Reorder)
    requires Streaming(s)
    ensures var (t, ok) := Flushed(s, None);
            && (ok <==> |s.pending| <= s.writer.budget)
            && (ok ==> Healthy(t.writer) && t.writer.written == DecodeSort(s.arrived)
                       && t.writer.budget == s.writer.budget - |s.pending|)
            && (!ok ==> t.writer.error == Some(Library))
  {
    hide DecodeSort, DtsUpTo, DtsAfter, SizeOf, Healthy, WrittenAll, RescaleQ;
    match s.flushedTo
    case None =>
      assert [] + DecodeSort(s.arrived) == DecodeSort(s.arrived);
      FlushBatch(s, s.arrived, s.pending);
    case Some(w) =>
      SortSplits(s.arrived, w);
      FlushBatch(s, s.arrived, s.pending);
  }

  /** Finalization checks the written range; given the packets of the range, only the library can refuse. */
  lemma FinalizeAcceptsRange(s: Reorder, end: nat)
    requires Streaming(s) && Spans(s.arrived, s.start, end)
    ensures Finalized(s, end).1 <==> |s.pending| < s.writer.budget
  {
    hide DecodeSort, DtsUpTo, DtsAfter, SizeOf, WrittenAll, RescaleQ;
    FinalFlush(s);
    var (t, ok) := Flushed(s, None);
    if ok {
      SortMembers(s.arrived);
      var q :| q in s.arrived && q.cts == s.start;
      assert q in t.writer.written;
      SpansUnique(t.writer.written, s.arrived, t.writer.first.value, t.writer.last, s.start, end);
    }
  }

  lemma SpansUnique(x: seq<Packet>, y: seq<Packet>, first: nat, last: nat, first': nat, last': nat)
    requires forall q :: q in x <==> q in y
    requires Spans(x, first, last) && Spans(y, first', last')
    ensures first == first' && last == last'
  {
  }

  // ---- whole runs of the sink

  datatype Call = Offer(packet: Packet) | Commit

  /** Plays the calls until one fails. */
  function Play(s: Reorder, calls: seq<Call>): (Reorder, bool) {
    if |calls| == 0 then (s, true)
    else
      var (t, ok) := Play(s, calls[..|calls| - 1]);
      if !ok then (t, false)
      else
        match calls[|calls| - 1]
        case Offer(p) => Offered(t, p)
        case Commit => CommittedThrough(t)
  }

  function Offers(calls: seq<Call>): seq<Packet> {
    if |calls| == 0 then []
    else
      var init := Offers(calls[..|calls| - 1]);
      match calls[|calls| - 1]
      case Offer(p) => init + [p]
      case Commit => init
  }

  /** No packet arrives at or below a decode watermark that was already used. */
  ghost predicate InOrder(s: Reorder, calls: seq<Call>) {
    |calls| > 0 ==>
      var init, last := calls[..|calls| - 1], calls[|calls| - 1];
      && InOrder(s, init)
      && (last.Offer? ==> !Late(Play(s, init).0, last.packet) && last.packet.tbNum > 0 && last.packet.tbDen > 0)
  }

  lemma {:induction false} PlayKeepsStreaming(s: Reorder, calls: seq<Call>)
    requires Streaming(s) && s.arrived == [] && InOrder(s, calls)
    ensures var (t, ok) := Play(s, calls);
            && (ok ==> Streaming(t) && t.arrived == Offers(calls))
            && (!ok ==> t.writer.error in {None, Some(Library)})
  {
    hide Streaming, Offered, CommittedThrough;
    if |calls| > 0 {
      var init, last := calls[..|calls| - 1], calls[|calls| - 1];
      PlayKeepsStreaming(s, init);
      var (t, ok) := Play(s, init);
      if ok {
        match last
        case Offer(p) => OfferKeepsStreaming(t, p); StreamingIsHealthy(Offered(t, p).0);
        case Commit => CommitKeepsStreaming(t);
      }
    }
  }

  lemma StreamingIsHealthy(s: Reorder)
    requires Streaming(s)
    ensures s.writer.error.None?
  {
  }

  // ---- what a run asks of the library

  lemma {:induction false} WritesCount(w: Writer, packets: seq<Packet>)
    ensures var v := WrittenAll(w, packets).0; v.budget + |v.written| == w.budget + |w.written|
  {
    if |packets| > 0 {
      WritesCount(w, packets[..|packets| - 1]);
    }
  }

  lemma {:induction false} PlayCounts(s: Reorder, calls: seq<Call>)
    ensures var t := Play(s, calls).0;
            t.start == s.start && t.writer.budget + |t.writer.written| == s.writer.budget + |s.writer.written|
  {
    hide DecodeSort, DtsUpTo, DtsAfter, SizeOf, WrittenAll, Mark;
    if |calls| > 0 {
      var init := calls[..|calls| - 1];
      PlayCounts(s, init);
      var t := Play(s, init).0;
      WritesCount(t.writer, DecodeSort(if Mark(t).None? then t.pending else DtsUpTo(t.pending, Mark(t).value)));
    }
  }

  lemma {:induction false} DtsCount(s: seq<Packet>, w: int)
    ensures |DtsUpTo(s, w)| + |DtsAfter(s, w)| == |s|
  {
    if |s| > 0 {
      DtsCount(s[..|s| - 1], w);
    }
  }

  lemma StreamingCounts(s: Reorder)
    requires Streaming(s)
    ensures |s.writer.written| + |s.pending| == |s.arrived|
  {
    hide DecodeSort, DtsUpTo, DtsAfter, SizeOf, Healthy, RescaleQ;
    if s.flushedTo.Some? {
      DtsCount(s.arrived, s.flushedTo.value);
      DecodeSortPermutes(DtsUpTo(s.arrived, s.flushedTo.value));
    }
  }

  /** A run over the packets of a range that was never refused: finalizing at the end of the range succeeds exactly if
      the library takes every packet and the trailer. */
  lemma RunFinalizes(s: Reorder, calls: seq<Call>, end: nat)
    requires Streaming(s) && s.arrived == [] && InOrder(s, calls) && Play(s, calls).1
    requires Spans(Offers(calls), s.start, end)
    ensures Finalized(Play(s, calls).0, end).1 <==> |Offers(calls)| < s.writer.budget
  {
    hide Streaming, Play, Finalized, Spans;
    PlayKeepsStreaming(s, calls);
    PlayCounts(s, calls);
    StreamingCounts(Play(s, calls).0);
    StreamingCounts(s);
    FinalizeAcceptsRange(Play(s, calls).0, end);
  }

  /** Whatever the batches, a run that reaches finalization has written one stable decode-order sort of all its
      packets, and the writer's DTS check has never fired. */
  lemma StreamingSortIsBatchSort(s: Reorder, calls: seq<Call>)
    requires Streaming(s) && s.arrived == [] && InOrder(s, calls)
    ensures var (t, ok) := Play(s, calls);
            var (u, done) := Flushed(t, None);
            && (ok && done ==> u.writer.written == DecodeSort(Offers(calls)))
            && (!ok ==> t.writer.error != Some(DtsOrder))
            && (ok && !done ==> u.writer.error == Some(Library))
  {
    hide Streaming, Flushed, Play;
    PlayKeepsStreaming(s, calls);
    var (t, ok) := Play(s, calls);
    if ok {
      FinalFlush(t);
    }
  }

  // ---- late packets

  /** What holds of a sink in every run, late packets or not, until a call fails. */
  ghost predicate Flushable(s: Reorder) {
    && Healthy(s.writer) && (forall q :: q in s.pending ==> Writable(q))
    && SameTimebase(s.pending, s.tbNum, s.tbDen)
  }

  function Due(s: Reorder, mark: Option<int>): seq<Packet> {
    if mark.None? then s.pending else DtsUpTo(s.pending, mark.value)
  }

  /** In the ticks of the file, the packet is not below the last one written. */
  ghost predicate InTime(w: Writer, p: Packet) {
    w.lastDts.Some? ==> Usable(w) && w.origin.Some? && Writable(p) && w.lastDts.value <= MuxedDts(w, p)
  }

  lemma SortedContinues(w: Writer, s: seq<Packet>, num: int, den: int)
    requires Healthy(w) && Usable(w) && DtsSorted(s) && SameTimebase(s, num, den) && forall q :: q in s ==> Writable(q)
    ensures Continues(w, s) <==> forall p :: p in s ==> InTime(w, p)
  {
    hide RescaleQ, InMuxOrder;
    OneTimebaseInOrder(w, s, num, den);
    HealthyIsUsable(w);
    if s != [] {
      assert s[0] in s;
      if w.lastDts.Some? {
        forall p | p in s ensures MuxedDts(w, s[0]) <= MuxedDts(w, p) {
          var i :| 0 <= i < |s| && s[i] == p;
          RescaleMonotone(s[0].dts - w.origin.value, p.dts - w.origin.value, num, den, w.tbNum, w.tbDen);
        }
      }
    }
  }

  lemma DueIsPending(s: Reorder, mark: Option<int>)
    ensures forall q :: q in Due(s, mark) ==> q in s.pending
    ensures forall q :: q in Flushed(s, mark).0.pending ==> q in s.pending
  {
    hide DtsUpTo, DtsAfter, WrittenAll, DecodeSort;
    if mark.Some? {
      DtsMembers(s.pending, mark.value);
    }
  }

  /** A flush succeeds exactly if the library takes what is due and nothing due is below the last packet written;
      otherwise, if the library takes it, the DTS check has fired. */
  lemma FlushExactly(s: Reorder, mark: Option<int>)
    requires Flushable(s)
    ensures var (t, ok) := Flushed(s, mark);
            && (ok <==> |Due(s, mark)| <= s.writer.budget && forall p :: p in Due(s, mark) ==> InTime(s.writer, p))
            && (ok ==> Flushable(t))
            && (!ok && |Due(s, mark)| <= s.writer.budget ==> t.writer.error == Some(DtsOrder))
  {
    hide DtsUpTo, DtsAfter, WrittenAll, DecodeSort, Healthy, Continues, InTime, Writable, SizeOf;
    var due := Due(s, mark);
    var b := DecodeSort(due);
    DueIsPending(s, mark);
    DecodeSortPermutes(due);
    DecodeSortIsStable(due);
    SortMembers(due);
    DecodeSortedByDts(b);
    HealthyIsUsable(s.writer);
    WriteExactly(s.writer, b);
    SortedContinues(s.writer, b, s.tbNum, s.tbDen);
  }

  lemma OfferKeepsFlushable(s: Reorder, p: Packet)
    requires Flushable(s) && p.tbNum > 0 && p.tbDen > 0
    ensures Flushable(Offered(s, p).0)
  {
    hide Healthy;
    if s.pending != [] {
      assert s.pending[0] in s.pending;
    }
  }

  ghost predicate UsableTimebases(calls: seq<Call>) {
    forall p :: Offer(p) in calls ==> p.tbNum > 0 && p.tbDen > 0
  }

  /** In every run: at any watermark, the next flush succeeds exactly if the library takes what is due and no packet due
      has come too late. */
  lemma {:induction false} RunFlushesExactly(s: Reorder, calls: seq<Call>, mark: Option<int>)
    requires Flushable(s) && UsableTimebases(calls) && Play(s, calls).1
    ensures var t := Play(s, calls).0;
            && Flushable(t)
            && (Flushed(t, mark).1 <==>
                  |Due(t, mark)| <= t.writer.budget && forall p :: p in Due(t, mark) ==> InTime(t.writer, p))
  {
    hide Flushed, Due, InTime, Flushable, Offered, Mark;
    if |calls| > 0 {
      var init, last := calls[..|calls| - 1], calls[|calls| - 1];
      assert last in calls && forall c :: c in init ==> c in calls;
      RunFlushesExactly(s, init, mark);
      var t := Play(s, init).0;
      match last
      case Offer(p) => OfferKeepsFlushable(t, p);
      case Commit => FlushExactly(t, Mark(t));
    }
    FlushExactly(Play(s, calls).0, mark);
  }

  function Frame(dts: int): Packet {
    Packet(0, dts, dts, 1, 1000, true, 1)
  }

  /** A sink that has just been opened, without a reorder window. */
  function Opened(): Reorder {
    Reorder([], 0, 10, 0, 0, 0, 0, None,
            Writer(true, 1, 1000, None, None, None, 0, [], None, 9, Timebase(1, 1000)), [], None)
  }

  lemma AloneDue(p: Packet, mark: int)
    requires p.dts <= mark
    ensures DtsUpTo([p], mark) == [p] && DtsAfter([p], mark) == [] && DecodeSort([p]) == [p]
  {
    assert [p][..0] == [];
  }

  lemma AloneWritten(w: Writer, p: Packet)
    ensures WrittenAll(w, [p]) == Written(w, p)
  {
    assert [p][..0] == [];
    assert WrittenAll(w, []) == (w, true);
  }

  /** An idle sink without a window: the watermark is the greatest DTS so far. */
  ghost predicate Idle(s: Reorder) {
    && s.pending == [] && s.pendingBytes == 0 && s.capacity == 10 && s.safety == 0
    && (s.tbNum == 0 || (s.tbNum == 1 && s.tbDen == 1000)) && (s.maxDts.Some? ==> INT64_MIN < s.maxDts.value)
  }

  lemma OfferToIdle(s: Reorder, p: Packet)
    requires Idle(s) && p.tbNum == 1 && p.tbDen == 1000 && p.size == 1 && INT64_MIN < p.dts
    ensures var (t, ok) := Offered(s, p);
            var mark := if s.maxDts.Some? && s.maxDts.value >= p.dts then s.maxDts.value else p.dts;
            && ok && Mark(t) == Some(mark) && t.pending == [p] && t.writer == s.writer
            && Idle(t.(pending := [], pendingBytes := 0))
  {
    assert [] + [p] == [p];
    RescaleZero(1, NANOSECONDS, 1, 1000);
  }

  /** Offering one packet to an idle sink and committing writes it at once. */
  lemma OfferAndCommit(s: Reorder, p: Packet)
    requires Idle(s) && p.tbNum == 1 && p.tbDen == 1000 && p.size == 1 && INT64_MIN < p.dts
    ensures var t := Offered(s, p).0;
            && Offered(s, p).1 && Mark(t).Some?
            && Flushed(t, Mark(t)).1 == Written(s.writer, p).1 && Idle(Flushed(t, Mark(t)).0)
            && Flushed(t, Mark(t)).0.writer == Written(s.writer, p).0
  {
    hide Offered, Mark, Written, DtsUpTo, DtsAfter, DecodeSort, WrittenAll;
    OfferToIdle(s, p);
    AloneDue(p, Mark(Offered(s, p).0).value);
    AloneWritten(s.writer, p);
  }

  lemma PlaySnoc(s: Reorder, calls: seq<Call>, call: Call)
    ensures Play(s, calls + [call]) ==
            var (t, ok) := Play(s, calls);
            if !ok then (t, false) else match call case Offer(p) => Offered(t, p) case Commit => CommittedThrough(t)
  {
    assert (calls + [call])[..|calls|] == calls;
  }

  const LATE_CALLS := [Offer(Frame(1000))] + [Commit] + [Offer(Frame(500))] + [Commit]

  /** A run with a late packet: the DTS check of the writer fires. */
  lemma LatePacketFails()
    ensures !Play(Opened(), LATE_CALLS).1 && Play(Opened(), LATE_CALLS).0.writer.error == Some(DtsOrder)
  {
    hide Play, Offered, Flushed, Mark, RescaleQ, Idle;
    var s, p, q := Opened(), Frame(1000), Frame(500);
    assert Idle(s) by { OpenedIsIdle(); }
    PlayNothing(s);
    assert [] + [Offer(p)] == [Offer(p)];
    PlaySnoc(s, [], Offer(p));
    PlaySnoc(s, [Offer(p)], Commit);
    OfferAndCommit(s, p);
    var u := Flushed(Offered(s, p).0, Mark(Offered(s, p).0)).0;
    PlaySnoc(s, [Offer(p)] + [Commit], Offer(q));
    PlaySnoc(s, [Offer(p)] + [Commit] + [Offer(q)], Commit);
    LateWritten(s.writer, p, q);
    OfferAndCommit(u, q);
  }

  lemma OpenedIsIdle()
    ensures Idle(Opened())
  {
  }

  lemma PlayNothing(s: Reorder)
    ensures Play(s, []) == (s, true)
  {
  }

  lemma LateWritten(w: Writer, p: Packet, q: Packet)
    requires w == Opened().writer && p == Frame(1000) && q == Frame(500)
    ensures Written(w, p).1
    ensures !Written(Written(w, p).0, q).1 && Written(Written(w, p).0, q).0.error == Some(DtsOrder)
  {
    hide RescaleQ;
    RescaleSame(0, w.tick);
    RescaleSame(-500, w.tick);
  }

  // ---- when no packet is late

  /** No packet comes a full window of decode time after one that decodes later. */
  ghost predicate Windowed(safety: nat, calls: seq<Call>) {
    |calls| > 0 ==>
      var init, last := calls[..|calls| - 1], calls[|calls| - 1];
      && Windowed(safety, init)
      && (last.Offer? ==>
            && last.packet.tbNum > 0 && last.packet.tbDen > 0
            && forall q :: q in Offers(init) ==>
                 q.tbNum > 0 && q.tbDen > 0 && q.dts < last.packet.dts + Window(safety, q.tbNum, q.tbDen))
  }

  /** The used watermark stays a window behind the greatest DTS offered. */
  ghost predicate Behind(s: Reorder, offers: seq<Packet>) {
    && (s.flushedTo.Some? ==>
          s.tbNum > 0 && s.tbDen > 0 && s.maxDts.Some? && s.flushedTo.value + SafetyTicks(s) <= s.maxDts.value)
    && (s.maxDts.Some? ==>
          && s.tbNum > 0 && s.tbDen > 0
          && exists q :: q in offers && q.dts == s.maxDts.value && q.tbNum == s.tbNum && q.tbDen == s.tbDen)
  }

  lemma OfferStaysBehind(s: Reorder, p: Packet, offers: seq<Packet>)
    requires Behind(s, offers) && p.tbNum > 0 && p.tbDen > 0
    ensures Behind(Offered(s, p).0, offers + [p])
  {
    hide Window;
    var t := Offered(s, p).0;
    assert p in offers + [p] && forall q :: q in offers ==> q in offers + [p];
  }

  lemma CommitStaysBehind(s: Reorder, offers: seq<Packet>)
    requires Behind(s, offers)
    ensures Behind(CommittedThrough(s).0, offers)
  {
    hide Window, WrittenAll, DecodeSort, DtsUpTo, DtsAfter, SizeOf;
  }

  lemma {:induction false} PlayStaysBehind(s: Reorder, calls: seq<Call>)
    requires Behind(s, []) && (Windowed(s.safety, calls) || InOrder(s, calls))
    ensures Behind(Play(s, calls).0, Offers(calls)) && Play(s, calls).0.safety == s.safety
  {
    hide Behind, Window;
    if |calls| > 0 {
      var init, last := calls[..|calls| - 1], calls[|calls| - 1];
      PlayStaysBehind(s, init);
      var t := Play(s, init).0;
      match last
      case Offer(p) =>
        OfferStaysBehind(t, p, Offers(init));
        MoreOffers(t, p, Offers(init));
      case Commit => CommitStaysBehind(t, Offers(init));
    }
  }

  lemma MoreOffers(s: Reorder, p: Packet, offers: seq<Packet>)
    requires Behind(s, offers)
    ensures Behind(s, offers + [p])
  {
    hide Window;
    assert forall q :: q in offers ==> q in offers + [p];
  }

  /** If no packet is a full window behind, none is late: every run of the sink is in order. */
  lemma {:induction false} WindowedIsInOrder(s: Reorder, calls: seq<Call>)
    requires Streaming(s) && s.arrived == [] && Windowed(s.safety, calls)
    ensures InOrder(s, calls)
  {
    hide Streaming, Window, Play;
    if |calls| > 0 {
      var init, last := calls[..|calls| - 1], calls[|calls| - 1];
      WindowedIsInOrder(s, init);
      FreshIsBehind(s);
      PlayStaysBehind(s, init);
    }
  }

  lemma FreshIsBehind(s: Reorder)
    requires Streaming(s) && s.arrived == []
    ensures Behind(s, [])
  {
  }

  // ---- the sink as the program runs it

  class MkvPacketSink {
    const writer: MkvPacketWriter
    var pending: seq<Packet>
    var pendingBytes: nat
    var pendingCapacityBytes: nat
    var muxerReorderSafetyCts: nat
    var commonStartCts: nat
    var packetTimebaseNum: int
    var packetTimebaseDen: int
    var hasMaxObservedDts: bool
    var maxObservedDts: int
    ghost var arrived: seq<Packet>
    ghost var flushedTo: Option<int>

    ghost predicate Valid()
      reads this, writer
    {
      writer.Valid() && (!hasMaxObservedDts ==> packetTimebaseNum == packetTimebaseDen == 0)
    }

    ghost function View(): Reorder
      reads this, writer
    {
      Reorder(pending, pendingBytes, pendingCapacityBytes, muxerReorderSafetyCts, commonStartCts,
              packetTimebaseNum, packetTimebaseDen, if hasMaxObservedDts then Some(maxObservedDts) else None,
              writer.View(), arrived, flushedTo)
    }

    constructor (libraryBudget: nat, tick: Timebase)
      ensures Valid() && fresh(writer)
    {
      var w := new MkvPacketWriter(libraryBudget, tick);
      writer := w;
      pending, pendingBytes, pendingCapacityBytes, muxerReorderSafetyCts, commonStartCts := [], 0, 0, 0, 0;
      packetTimebaseNum, packetTimebaseDen, hasMaxObservedDts, maxObservedDts := 0, 0, false, 0;
      arrived, flushedTo := [], None;
    }

    /** A freshly opened sink streams. */
    method Open(configured: bool, num: int, den: int, capacity: nat, safety: nat, start: nat) returns (ok: bool)
      requires Valid()
      modifies this, writer
      ensures Valid()
      ensures ok && old(writer.View()).written == [] && old(writer.View()).lastDts.None?
              && old(writer.View()).first.None? && old(writer.View()).last == 0 ==>
              Streaming(View()) && View().arrived == [] && View().start == start && View().safety == safety
    {
      hide DecodeSort, DtsUpTo, DtsAfter, RescaleQ;
      Reset(capacity, safety, start);
      if capacity == 0 {
        return false;
      }
      ok := writer.Open(configured, num, den);
    }

    method Reset(capacity: nat, safety: nat, start: nat)
      modifies this
      ensures View() == Reorder([], 0, capacity, safety, start, 0, 0, None, writer.View(), [], None)
      ensures packetTimebaseNum == packetTimebaseDen == 0 && !hasMaxObservedDts
    {
      pending, pendingBytes, arrived, flushedTo := [], 0, [], None;
      pendingCapacityBytes, muxerReorderSafetyCts, commonStartCts := capacity, safety, start;
      packetTimebaseNum, packetTimebaseDen, hasMaxObservedDts, maxObservedDts := 0, 0, false, 0;
    }

    method Write(packet: Packet) returns (ok: bool)
      requires Valid()
      modifies this
      ensures Valid() && (View(), ok) == Offered(old(View()), packet)
    {
      var used := if pendingBytes <= pendingCapacityBytes then pendingBytes else pendingCapacityBytes;
      if packet.size == 0 || packet.size > pendingCapacityBytes - used {
        return false;
      }
      if packetTimebaseNum == 0 {
        packetTimebaseNum, packetTimebaseDen := packet.tbNum, packet.tbDen;
      } else if packet.tbNum != packetTimebaseNum || packet.tbDen != packetTimebaseDen {
        return false;
      }
      if !hasMaxObservedDts || packet.dts > maxObservedDts {
        maxObservedDts, hasMaxObservedDts := packet.dts, true;
      }
      pendingBytes := pendingBytes + packet.size;
      pending, arrived := pending + [packet], arrived + [packet];
      return true;
    }

    method CommitThrough() returns (ok: bool)
      requires Valid()
      modifies this, writer
      ensures Valid() && (View(), ok) == CommittedThrough(old(View()))
    {
      hide DecodeSort, DtsUpTo, DtsAfter, SizeOf, WrittenAll, RescaleQ;
      if !hasMaxObservedDts || packetTimebaseNum <= 0 || packetTimebaseDen <= 0 {
        return true;
      }
      var safetyTicks := RescaleQ(if muxerReorderSafetyCts < INT64_MAX then muxerReorderSafetyCts else INT64_MAX,
                                  1, NANOSECONDS, packetTimebaseNum, packetTimebaseDen);
      if maxObservedDts <= INT64_MIN + safetyTicks {
        return true;
      }
      ok := FlushPendingThroughDts(Some(maxObservedDts - safetyTicks));
    }

    method FlushPendingThroughDts(mark: Option<int>) returns (ok: bool)
      requires Valid()
      modifies this, writer
      ensures Valid() && (View(), ok) == Flushed(old(View()), mark)
    {
      hide DecodeSort, DtsUpTo, DtsAfter, WrittenAll, StableSortOf;
      var selected, remaining := Divide(mark);
      pending, pendingBytes := remaining, 0;
      for i := 0 to |remaining|
        invariant pendingBytes == SizeOf(remaining[..i]) && pending == remaining
        invariant View() == old(View()).(pending := remaining, pendingBytes := pendingBytes)
        invariant Valid()
      {
        assert remaining[..i + 1] == remaining[..i] + [remaining[i]];
        SizeSnoc(remaining[..i], remaining[i]);
        pendingBytes := pendingBytes + remaining[i].size;
      }
      assert remaining[..|remaining|] == remaining;
      flushedTo := if mark.Some? then mark else flushedTo;
      var sorted := SortForDecodeOrder(selected);
      ok := WriteEach(sorted);
    }

    /** Splits the pending packets at the watermark, keeping arrival order. */
    method Divide(mark: Option<int>) returns (selected: seq<Packet>, remaining: seq<Packet>)
      ensures selected == if mark.None? then pending else DtsUpTo(pending, mark.value)
      ensures remaining == if mark.None? then [] else DtsAfter(pending, mark.value)
    {
      hide DtsUpTo, DtsAfter;
      selected, remaining := [], [];
      ghost var w := if mark.Some? then mark.value else 0;
      assert DtsUpTo([], w) == [] && DtsAfter([], w) == [] by { DtsEmpty(w); }
      for i := 0 to |pending|
        invariant selected == if mark.None? then pending[..i] else DtsUpTo(pending[..i], w)
        invariant remaining == if mark.None? then [] else DtsAfter(pending[..i], w)
      {
        assert pending[..i + 1] == pending[..i] + [pending[i]];
        DtsUpToSnoc(pending[..i], pending[i], w);
        DtsAfterSnoc(pending[..i], pending[i], w);
        if mark.None? || pending[i].dts <= mark.value {
          selected := selected + [pending[i]];
        } else {
          remaining := remaining + [pending[i]];
        }
      }
      assert pending[..|pending|] == pending;
    }

    method WriteEach(packets: seq<Packet>) returns (ok: bool)
      requires Valid()
      modifies writer
      ensures Valid()
      ensures (writer.View(), ok) == WrittenAll(old(writer.View()), packets)
    {
      hide Written;
      ok := true;
      for i := 0 to |packets|
        invariant Valid() && ok
        invariant (writer.View(), ok) == WrittenAll(old(writer.View()), packets[..i])
      {
        WrittenSnoc(old(writer.View()), packets[..i], packets[i]);
        assert packets[..i + 1] == packets[..i] + [packets[i]];
        ok := writer.Write(packets[i]);
        if !ok {
          WrittenStops(old(writer.View()), packets, i + 1);
          return;
        }
      }
      assert packets[..|packets|] == packets;
    }

    method Finalize(end: nat) returns (ok: bool)
      requires Valid()
      modifies this, writer
      ensures Valid() && (View(), ok) == Finalized(old(View()), end)
    {
      hide DecodeSort, DtsUpTo, DtsAfter, WrittenAll, SizeOf;
      ok := FlushPendingThroughDts(None);
      if !ok {
        return false;
      }
      var result := writer.Finalize();
      ok := result.success && result.first == commonStartCts && result.last == end;
    }

    method Abort()
      requires Valid()
      modifies this, writer
      ensures Valid() && pending == [] && pendingBytes == 0 && pendingCapacityBytes == 0 && !writer.isOpen
      ensures writer.written == old(writer.written)
    {
      pending, pendingBytes, pendingCapacityBytes, muxerReorderSafetyCts := [], 0, 0, 0;
      packetTimebaseNum, packetTimebaseDen, hasMaxObservedDts, maxObservedDts := 0, 0, false, 0;
      writer.Abort();
    }
  }

  lemma DtsEmpty(w: int)
    ensures DtsUpTo([], w) == [] && DtsAfter([], w) == []
  {
  }

  lemma WrittenSnoc(w: Writer, packets: seq<Packet>, p: Packet)
    ensures WrittenAll(w, packets + [p]) ==
            if WrittenAll(w, packets).1 then Written(WrittenAll(w, packets).0, p) else WrittenAll(w, packets)
  {
    assert (packets + [p])[..|packets|] == packets;
  }

  /** Nothing is written after a refusal. */
  lemma {:induction false} WrittenStops(w: Writer, packets: seq<Packet>, k: nat)
    requires k <= |packets| && !WrittenAll(w, packets[..k]).1
    ensures WrittenAll(w, packets) == WrittenAll(w, packets[..k])
    decreases |packets| - k
  {
    if k == |packets| {
      assert packets[..k] == packets;
    } else {
      assert packets[..k + 1] == packets[..k] + [packets[k]];
      WrittenSnoc(w, packets[..k], packets[k]);
      WrittenStops(w, packets, k + 1);
    }
  }
}
