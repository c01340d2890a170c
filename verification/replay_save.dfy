/** Saving a replay: remuxing the slices of a snapshot and writing them, one container per stream. The worker
    thread of a save is one asynchronous step. */
module ReplaySave {
  import opened Packets
  import opened DecodeOrder
  import opened MkvWriter
  import opened CaptureRing
  import opened ReplaySnapshot
  import opened CaptureSession
  import MkvSink

  // ---- remuxing

  function Remuxed(p: Packet, start: nat, num: int, den: int, origin: int): Packet
    requires num > 0 && den > 0
  {
    p.(pts := RescaleQ(p.cts - start, 1, NANOSECONDS, num, den), dts := p.dts - origin)
  }

  function Muxed(owned: seq<Packet>, start: nat): seq<Packet> {
    var s := DecodeSort(owned);
    if |s| == 0 || s[0].tbNum <= 0 || s[0].tbDen <= 0 then s
    else seq(|s|, i requires 0 <= i < |s| => Remuxed(s[i], start, s[0].tbNum, s[0].tbDen, s[0].dts))
  }

  method MuxPackets(owned: seq<Packet>, start: nat) returns (packets: seq<Packet>)
    ensures packets == Muxed(owned, start)
  {
    hide DecodeSort, StableSortOf, Remuxed;
    packets := SortForDecodeOrder(owned);
    if |packets| == 0 || packets[0].tbNum <= 0 || packets[0].tbDen <= 0 {
      return;
    }
    var num, den, origin := packets[0].tbNum, packets[0].tbDen, packets[0].dts;
    ghost var sorted := packets;
    for i := 0 to |packets|
      invariant |packets| == |sorted|
      invariant forall j :: 0 <= j < i ==> packets[j] == Remuxed(sorted[j], start, num, den, origin)
      invariant forall j :: i <= j < |packets| ==> packets[j] == sorted[j]
    {
      packets := packets[i := Remuxed(packets[i], start, num, den, origin)];
    }
  }

  lemma {:induction false} PlaceCts(r: seq<Packet>, p: Packet)
    ensures multiset(CtsOf(Place(r, p))) == multiset(CtsOf(r)) + multiset{p.cts}
  {
    if |r| == 0 || !DecodesBefore(p, r[|r| - 1]) {
      assert CtsOf(r + [p]) == CtsOf(r) + [p.cts];
    } else {
      var init, last := r[..|r| - 1], r[|r| - 1];
      PlaceCts(init, p);
      assert CtsOf(Place(init, p) + [last]) == CtsOf(Place(init, p)) + [last.cts];
      assert CtsOf(r) == CtsOf(init) + [last.cts];
    }
  }

  lemma {:induction false} SortCts(s: seq<Packet>)
    ensures multiset(CtsOf(DecodeSort(s))) == multiset(CtsOf(s))
  {
    if |s| > 0 {
      var init, last := s[..|s| - 1], s[|s| - 1];
      SortCts(init);
      PlaceCts(DecodeSort(init), last);
      assert CtsOf(s) == CtsOf(init) + [last.cts];
    }
  }

  /** Remuxing keeps the frames of the slice, orders them by DTS from zero, and gives them presentation
      timestamps in CTS order with zero at the start of the range. */
  lemma MuxedInDecodeOrder(owned: seq<Packet>, start: nat)
    requires forall q :: q in owned ==> Writable(q)
    ensures var m := Muxed(owned, start);
            && multiset(CtsOf(m)) == multiset(CtsOf(owned))
            && DtsSorted(m) && (m != [] ==> m[0].dts == 0)
            && (forall i, j :: 0 <= i < |m| && 0 <= j < |m| && m[i].cts <= m[j].cts ==> m[i].pts <= m[j].pts)
            && (forall i :: 0 <= i < |m| && m[i].cts == start ==> m[i].pts == 0)
  {
    hide DecodeSort, RescaleQ, StableSortOf;
    var s, m := DecodeSort(owned), Muxed(owned, start);
    SortCts(owned);
    SortedMembers(owned);
    MuxedIs(owned, start);
    assert CtsOf(m) == CtsOf(s);
    assert DecodeSorted(s) by { DecodeSortIsStable(owned); StableIsSorted(s, owned); }
    DecodeSortedByDts(s);
    hide DecodeSorted;
    if m != [] {
      var num, den := s[0].tbNum, s[0].tbDen;
      assert s[0] in owned;
      forall i, j | 0 <= i < |m| && 0 <= j < |m| && m[i].cts <= m[j].cts ensures m[i].pts <= m[j].pts {
        RescaleMonotone(m[i].cts - start, m[j].cts - start, 1, NANOSECONDS, num, den);
      }
      RescaleZero(1, NANOSECONDS, num, den);
    }
  }

  /** The packet as it is saved: at most half a tick off its CTS counted from the start, its DTS counted from the first
      one, and nothing else changed. */
  ghost predicate SavedAs(p: Packet, m: Packet, start: nat, num: int, den: int, origin: int) {
    && OnTime(m.pts, p.cts - start, num, den) && m.dts == p.dts - origin
    && m.cts == p.cts && m.tbNum == p.tbNum && m.tbDen == p.tbDen && m.keyframe == p.keyframe && m.size == p.size
  }

  /** A remuxed slice holds, in decode order, exactly its packets, each as it is to be saved: in the timebase of the
      first one, with the DTS differences of the originals. */
  lemma MuxedExactly(owned: seq<Packet>, start: nat, s: seq<Packet>)
    requires StableSortOf(s, owned) && forall q :: q in owned ==> Writable(q)
    ensures var m := Muxed(owned, start);
            && |m| == |s|
            && (forall i :: 0 <= i < |m| ==> SavedAs(s[i], m[i], start, s[0].tbNum, s[0].tbDen, s[0].dts))
            && (forall i, j :: 0 <= i < |m| && 0 <= j < |m| ==> m[i].dts - m[j].dts == s[i].dts - s[j].dts)
  {
    hide DecodeSort, RescaleQ, StableSortOf, OnTime;
    DecodeSortIsStable(owned);
    StableSortUnique(s, owned);
    SortedMembers(owned);
    MuxedIs(owned, start);
    var m := Muxed(owned, start);
    if m != [] {
      assert s[0] in owned;
      forall i | 0 <= i < |m| ensures SavedAs(s[i], m[i], start, s[0].tbNum, s[0].tbDen, s[0].dts) {
        RescaledOnTime(s[i].cts - start, s[0].tbNum, s[0].tbDen);
      }
    }
  }

  lemma StableIsSorted(r: seq<Packet>, s: seq<Packet>)
    requires StableSortOf(r, s)
    ensures DecodeSorted(r)
  {
  }

  lemma SortedMembers(s: seq<Packet>)
    ensures |DecodeSort(s)| == |s| && forall q :: q in DecodeSort(s) <==> q in s
  {
    MkvSink.SortMembers(s);
    DecodeSortPermutes(s);
  }

  lemma MuxedIs(owned: seq<Packet>, start: nat)
    requires forall q :: q in owned ==> Writable(q)
    ensures var s, m := DecodeSort(owned), Muxed(owned, start);
            && |m| == |s|
            && forall i :: 0 <= i < |m| ==>
                 && s[0].tbNum > 0 && s[0].tbDen > 0
                 && m[i] == Remuxed(s[i], start, s[0].tbNum, s[0].tbDen, s[0].dts)
  {
    hide DecodeSort, Remuxed;
    SortedMembers(owned);
    var s := DecodeSort(owned);
    assert |s| > 0 ==> s[0] in owned;
  }

  lemma MuxedMembers(owned: seq<Packet>, start: nat)
    requires forall q :: q in owned ==> Writable(q)
    ensures var m := Muxed(owned, start);
            && |m| == |owned|
            && (forall num, den :: SameTimebase(owned, num, den) ==> SameTimebase(m, num, den))
            && (forall q :: q in m ==> Writable(q) && HasCts(owned, q.cts))
            && forall c: nat :: HasCts(owned, c) ==> HasCts(m, c)
  {
    hide DecodeSort, RescaleQ;
    var s, m := DecodeSort(owned), Muxed(owned, start);
    SortedMembers(owned);
    MuxedIs(owned, start);
    forall q | q in m ensures Writable(q) && HasCts(owned, q.cts) {
      var i :| 0 <= i < |m| && m[i] == q;
      assert s[i] in owned;
    }
    forall num, den | SameTimebase(owned, num, den) ensures SameTimebase(m, num, den) {
      forall q | q in m ensures q.tbNum == num && q.tbDen == den {
        var i :| 0 <= i < |m| && m[i] == q;
        assert s[i] in owned;
      }
    }
    forall c: nat | HasCts(owned, c) ensures HasCts(m, c) {
      var q :| q in owned && q.cts == c;
      assert q in s;
      var i :| 0 <= i < |s| && s[i] == q;
      assert m[i] in m;
    }
  }

  // ---- writing one stream

  datatype SaveError =
    | CountMismatch | OpenFailed | EmptyStream | WriteFailed(cause: Option<WriterError>)
    | RangeMismatch(cause: Option<WriterError>)

  /** Where one stream goes: a path, and what the container library will do with it. */
  datatype Medium = Medium(path: bool, budget: nat, tick: Timebase)

  predicate Opens(config: SnapshotConfig, m: Medium) {
    m.path && config.header && config.tbNum > 0 && config.tbDen > 0 && m.budget > 0
  }

  const NO_RESULT: WriteResult := WriteResult(false, 0, 0, 0, None)

  function SavedStream(slice: seq<Packet>, config: SnapshotConfig, m: Medium, start: nat, end: nat):
    (Option<SaveError>, WriteResult)
  {
    if !Opens(config, m) then (Some(OpenFailed), NO_RESULT)
    else
      var w := Begun(m);
      var packets := Muxed(slice, start);
      if |packets| == 0 then (Some(EmptyStream), NO_RESULT)
      else
        var (v, ok) := WrittenAll(w, packets);
        if !ok then (Some(WriteFailed(v.error)), NO_RESULT)
        else
          var result := Closed(v).1;
          (if !result.success || result.first != start || result.last != end then Some(RangeMismatch(result.error))
           else None,
           result)
  }

  method SaveStream(slice: seq<Packet>, config: SnapshotConfig, m: Medium, start: nat, end: nat)
    returns (error: Option<SaveError>, result: WriteResult)
    ensures (error, result) == SavedStream(slice, config, m, start, end)
  {
    hide Muxed, Written;
    var writer := new MkvPacketWriter(m.budget, m.tick);
    var ok := writer.Open(m.path && config.header, config.tbNum, config.tbDen);
    if !ok {
      return Some(OpenFailed), NO_RESULT;
    }
    var packets := MuxPackets(slice, start);
    if |packets| == 0 {
      writer.Abort();
      return Some(EmptyStream), NO_RESULT;
    }
    ghost var w := writer.View();
    for i := 0 to |packets|
      invariant writer.Valid() && fresh(writer) && (writer.View(), true) == WrittenAll(w, packets[..i])
    {
      MkvSink.WrittenSnoc(w, packets[..i], packets[i]);
      assert packets[..i + 1] == packets[..i] + [packets[i]];
      ok := writer.Write(packets[i]);
      if !ok {
        MkvSink.WrittenStops(w, packets, i + 1);
        error := Some(WriteFailed(writer.error));
        writer.Abort();
        return error, NO_RESULT;
      }
    }
    assert packets[..|packets|] == packets;
    result := writer.Finalize();
    error := if !result.success || result.first != start || result.last != end
             then Some(RangeMismatch(result.error)) else None;
  }

  ghost predicate OneTimebase(s: seq<Packet>) {
    exists num, den :: SameTimebase(s, num, den)
  }

  /** The writer of a stream when its container has been opened. */
  function Begun(m: Medium): Writer
    requires m.budget > 0
  {
    Writer(true, m.tick.num, m.tick.den, None, None, None, 0, [], None, m.budget - 1, m.tick)
  }

  /** The remuxed slice never steps back in the DTS ticks of its container. */
  ghost predicate InOrder(slice: seq<Packet>, m: Medium, start: nat)
    requires forall q :: q in slice ==> Writable(q)
  {
    MuxedMembers(slice, start);
    InMuxOrder(Begun(m.(budget := 1)), Muxed(slice, start))
  }

  /** A slice that spans the range is saved exactly if it stays in mux order and the library takes the header, its
      packets and the trailer. The order check fires exactly if the library reaches it and the order is broken; the
      range check never fires on its own. */
  lemma SliceSaves(slice: seq<Packet>, config: SnapshotConfig, m: Medium, start: nat, end: nat)
    requires Spans(slice, start, end) && config.tbNum > 0 && config.tbDen > 0
    requires forall q :: q in slice ==> Writable(q)
    ensures var (error, result) := SavedStream(slice, config, m, start, end);
            && (error.None? <==>
                  m.path && config.header && m.budget >= |slice| + 2 && InOrder(slice, m, start))
            && (error.None? ==> result == WriteResult(true, start, end, |slice|, None))
            && (error.Some? ==> error.value in {OpenFailed, WriteFailed(Some(Library)), WriteFailed(Some(DtsOrder)),
                                                RangeMismatch(Some(Library))})
            && (error == Some(WriteFailed(Some(DtsOrder))) ==> !InOrder(slice, m, start))
            && (Opens(config, m) && m.budget >= |slice| + 1 && !InOrder(slice, m, start) ==>
                  error == Some(WriteFailed(Some(DtsOrder))))
  {
    hide Muxed, WrittenAll, Writable, Spans, SameTimebase, Healthy, InMuxOrder, HasCts, Closed;
    MuxedFacts(slice, start, end);
    if Opens(config, m) {
      AllWritten(Muxed(slice, start), slice, m, start, end);
    }
  }

  lemma MuxedFacts(slice: seq<Packet>, start: nat, end: nat)
    requires Spans(slice, start, end) && forall q :: q in slice ==> Writable(q)
    ensures var m := Muxed(slice, start);
            && m != [] && |m| == |slice|
            && (forall q :: q in m ==> Writable(q) && HasCts(slice, q.cts))
            && forall c: nat :: HasCts(slice, c) ==> HasCts(m, c)
  {
    hide Muxed;
    MuxedMembers(slice, start);
  }

  lemma SameOrder(m: Medium, packets: seq<Packet>)
    requires m.budget > 0 && forall q :: q in packets ==> Writable(q)
    ensures InMuxOrder(Begun(m), packets) <==> InMuxOrder(Begun(m.(budget := 1)), packets)
  {
  }

  lemma AllWritten(packets: seq<Packet>, slice: seq<Packet>, m: Medium, start: nat, end: nat)
    requires packets != [] && |packets| == |slice|
    requires forall q :: q in packets ==> Writable(q) && HasCts(slice, q.cts)
    requires forall c: nat :: HasCts(slice, c) ==> HasCts(packets, c)
    requires Spans(slice, start, end) && m.budget > 0
    ensures var ordered, (v, ok) := InMuxOrder(Begun(m.(budget := 1)), packets), WrittenAll(Begun(m), packets);
            && (ok <==> |slice| + 1 <= m.budget && ordered)
            && (!ok ==> v.error in {Some(Library), Some(DtsOrder)})
            && (!ok && |slice| + 1 <= m.budget ==> v.error == Some(DtsOrder))
            && (!ok && ordered ==> v.error == Some(Library))
            && (ok ==> Closed(v).1 == WriteResult(m.budget >= |slice| + 2, start, end, |slice|,
                                                  if m.budget >= |slice| + 2 then None else Some(Library)))
  {
    hide WrittenAll, Writable, Spans, InMuxOrder, HasCts;
    SameOrder(m, packets);
    WriteExactly(Begun(m), packets);
    FreshContinues(Begun(m), packets);
    var (v, ok) := WrittenAll(Begun(m), packets);
    if ok {
      SpansSame(v.written, slice, v.first.value, v.last, start, end);
    }
  }

  /** With one timebase, the remuxed slice is in order. */
  lemma OneTimebaseIsInOrder(slice: seq<Packet>, m: Medium, start: nat)
    requires OneTimebase(slice) && forall q :: q in slice ==> Writable(q)
    ensures InOrder(slice, m, start)
  {
    hide Muxed, InMuxOrder, SameTimebase, DtsSorted, Writable;
    var num, den :| SameTimebase(slice, num, den);
    MuxedMembers(slice, start);
    MuxedInDecodeOrder(slice, start);
    OneTimebaseInOrder(Begun(m.(budget := 1)), Muxed(slice, start), num, den);
  }

  lemma SpansSame(x: seq<Packet>, y: seq<Packet>, first: nat, last: nat, first': nat, last': nat)
    requires (forall q :: q in x ==> HasCts(y, q.cts)) && forall c: nat :: HasCts(y, c) ==> HasCts(x, c)
    requires Spans(x, first, last) && Spans(y, first', last')
    ensures first == first' && last == last'
  {
  }

  // ---- writing a snapshot

  datatype Job = Job(start: nat, end: nat, slices: seq<seq<Packet>>, configs: seq<SnapshotConfig>, media: seq<Medium>)

  datatype SaveResult = SaveResult(start: nat, end: nat, streams: seq<WriteResult>, payloadBytes: nat,
                                   error: Option<SaveError>)

  predicate Paired(job: Job) {
    |job.slices| == |job.configs| == |job.media|
  }

  function StreamOutcome(job: Job, i: nat): (Option<SaveError>, WriteResult)
    requires Paired(job) && i < |job.slices|
  {
    SavedStream(job.slices[i], job.configs[i], job.media[i], job.start, job.end)
  }

  /** The streams are written in order up to the first failure, which becomes the error of the save. */
  ghost predicate Saves(job: Job, result: SaveResult) {
    && result.start == job.start && result.end == job.end && |result.streams| == |job.slices|
    && (result.error == Some(CountMismatch) <==> !Paired(job))
    && (Paired(job) ==>
          match result.error
          case None =>
            && result.payloadBytes == TotalSize(job.slices)
            && forall i :: 0 <= i < |job.slices| ==> StreamOutcome(job, i) == (None, result.streams[i])
          case Some(e) =>
            exists k :: 0 <= k < |job.slices| && StreamOutcome(job, k).0 == Some(e) &&
              forall i :: 0 <= i < k ==> StreamOutcome(job, i) == (None, result.streams[i]))
  }

  method SizeOfSlice(s: seq<Packet>) returns (bytes: nat)
    ensures bytes == SizeOf(s)
  {
    bytes := 0;
    for i := 0 to |s|
      invariant bytes == SizeOf(s[..i])
    {
      assert s[..i + 1][..i] == s[..i];
      bytes := bytes + s[i].size;
    }
    assert s[..|s|] == s;
  }

  method WriteSnapshot(job: Job) returns (result: SaveResult)
    ensures Saves(job, result)
  {
    hide SavedStream, SizeOf;
    result := SaveResult(job.start, job.end, seq(|job.slices|, i => NO_RESULT), 0, None);
    if |job.slices| != |job.configs| || |job.slices| != |job.media| {
      return result.(error := Some(CountMismatch));
    }
    for i := 0 to |job.slices|
      invariant result == SaveResult(job.start, job.end, result.streams, TotalSize(job.slices[..i]), None)
      invariant |result.streams| == |job.slices|
      invariant forall j :: 0 <= j < i ==> StreamOutcome(job, j) == (None, result.streams[j])
    {
      assert job.slices[..i + 1][..i] == job.slices[..i];
      var bytes := SizeOfSlice(job.slices[i]);
      result := result.(payloadBytes := result.payloadBytes + bytes);
      var error, written := SaveStream(job.slices[i], job.configs[i], job.media[i], job.start, job.end);
      NoCountMismatch(job, i);
      if error.None? || error.value.RangeMismatch? {
        result := result.(streams := result.streams[i := written]);
      }
      if error.Some? {
        assert StreamOutcome(job, i).0 == error;
        return result.(error := error);
      }
    }
    assert job.slices[..|job.slices|] == job.slices;
  }

  lemma NoCountMismatch(job: Job, i: nat)
    requires Paired(job) && i < |job.slices|
    ensures StreamOutcome(job, i).0 != Some(CountMismatch)
  {
  }

  // ---- end to end

  /** The job that a snapshot of the ring gives rise to. */
  ghost predicate JobOf(v: Ring, ids: seq<nat>, duration: nat, job: Job)
    requires RingOk(v)
  {
    && ids != [] && duration > 0 && Covered(v.streams, ids)
    && Selectable(Selection(v.streams, ids))
    && Correct(Selection(v.streams, ids), duration, Taken(job.start, job.end, job.slices))
    && job.configs == ConfigsOf(v.streams, ids)
  }

  lemma SliceOfRing(v: Ring, ids: seq<nat>, duration: nat, job: Job, i: nat)
    requires RingOk(v) && JobOf(v, ids, duration, job) && i < |ids|
    ensures |job.slices| == |job.configs| == |ids|
    ensures Spans(job.slices[i], job.start, job.end)
    ensures job.configs[i].tbNum > 0 && job.configs[i].tbDen > 0
    ensures forall q :: q in job.slices[i] ==> Writable(q) && q in v.streams[ids[i]].packets
  {
    hide From, UpTo, Between, SizeOf, Count, Held, Window, Correct, StreamOk;
    var sel, attempt := Selection(v.streams, ids), Taken(job.start, job.end, job.slices);
    WindowExists(sel);
    Boundaries(sel, duration, attempt, LatestFirst(sel), EarliestLast(sel));
    SlicesAre(sel, duration, attempt, LatestFirst(sel), EarliestLast(sel));
    BetweenMembers(sel[i], job.start, job.end);
    var slice := job.slices[i];
    assert slice[0] in slice && slice[|slice| - 1] in slice;
    HistoryFacts(v.streams[ids[i]]);
  }

  lemma HistoryFacts(s: StreamState)
    requires StreamOk(s) && s.packets != []
    ensures s.tbNum > 0 && s.tbDen > 0 && forall q :: q in s.packets ==> Writable(q)
  {
    hide SizeOf, Sorted;
  }

  ghost predicate StreamSaves(v: Ring, ids: seq<nat>, job: Job, i: nat)
    requires Paired(job) && i < |job.slices| == |ids| && ids[i] < |v.streams|
    requires forall q :: q in job.slices[i] ==> Writable(q)
  {
    && job.media[i].path && v.streams[ids[i]].header && job.media[i].budget >= |job.slices[i]| + 2
    && InOrder(job.slices[i], job.media[i], job.start)
  }

  /** End to end: a snapshot of the ring is saved exactly if every stream has a path and a codec header, stays in mux
      order, and the library takes its header, its packets and its trailer. Nothing else can make the save fail. */
  lemma RingSnapshotSaves(v: Ring, ids: seq<nat>, duration: nat, job: Job, result: SaveResult)
    requires RingOk(v) && JobOf(v, ids, duration, job) && |job.media| == |ids| && Saves(job, result)
    ensures Paired(job) && |job.slices| == |ids| && forall i :: 0 <= i < |ids| ==> ids[i] < |v.streams|
    ensures forall i, q :: 0 <= i < |ids| && q in job.slices[i] ==> Writable(q)
    ensures result.error.None? <==> forall i :: 0 <= i < |ids| ==> StreamSaves(v, ids, job, i)
    ensures result.error.None? ==> |result.streams| == |ids| && forall i :: 0 <= i < |ids| ==>
              result.streams[i] == WriteResult(true, job.start, job.end, |job.slices[i]|, None)
    ensures result.error.Some? ==>
              result.error.value in {OpenFailed, WriteFailed(Some(Library)), WriteFailed(Some(DtsOrder)),
                                     RangeMismatch(Some(Library))}
    ensures result.error == Some(WriteFailed(Some(DtsOrder))) ==>
              exists i :: 0 <= i < |ids| && !InOrder(job.slices[i], job.media[i], job.start)
  {
    hide RingOk, SavedStream, Spans, TotalSize, Correct, InOrder, Writable;
    SliceOfRing(v, ids, duration, job, 0);
    forall i | 0 <= i < |ids|
      ensures ids[i] < |v.streams| && SlotSaved(v, ids, job, i)
    {
      SliceOfRing(v, ids, duration, job, i);
      OneSliceSaves(v, ids, duration, job, i);
    }
    hide JobOf, StreamOutcome;
    if result.error.None? {
      forall i | 0 <= i < |ids|
        ensures StreamSaves(v, ids, job, i)
        ensures result.streams[i] == WriteResult(true, job.start, job.end, |job.slices[i]|, None)
      {
        assert SlotSaved(v, ids, job, i) && StreamOutcome(job, i) == (None, result.streams[i]);
      }
    } else {
      assert SlotSaved(v, ids, job, 0);
      var k :| 0 <= k < |ids| && StreamOutcome(job, k).0 == result.error;
      assert SlotSaved(v, ids, job, k);
    }
  }

  /** What `RingSnapshotSaves` says of one stream. */
  ghost predicate SlotSaved(v: Ring, ids: seq<nat>, job: Job, i: nat) {
    && Paired(job) && |job.slices| == |ids| && i < |ids| && ids[i] < |v.streams|
    && (forall q :: q in job.slices[i] ==> Writable(q))
    && var (error, written) := StreamOutcome(job, i);
       && (error.None? <==> StreamSaves(v, ids, job, i))
       && (error.None? ==> written == WriteResult(true, job.start, job.end, |job.slices[i]|, None))
       && (error.Some? ==> error.value in {OpenFailed, WriteFailed(Some(Library)), WriteFailed(Some(DtsOrder)),
                                           RangeMismatch(Some(Library))})
       && (error == Some(WriteFailed(Some(DtsOrder))) ==> !InOrder(job.slices[i], job.media[i], job.start))
  }

  lemma OneSliceSaves(v: Ring, ids: seq<nat>, duration: nat, job: Job, i: nat)
    requires RingOk(v) && JobOf(v, ids, duration, job) && |job.media| == |ids| && i < |ids|
    ensures SlotSaved(v, ids, job, i)
  {
    hide RingOk, SavedStream, Spans, Correct, Selectable, InOrder, Writable;
    SliceOfRing(v, ids, duration, job, i);
    SliceSaves(job.slices[i], job.configs[i], job.media[i], job.start, job.end);
  }

  /** If each stream of the ring uses one timebase, only the open and the library can make the save fail. */
  lemma OneTimebaseSaves(v: Ring, ids: seq<nat>, duration: nat, job: Job, result: SaveResult)
    requires RingOk(v) && JobOf(v, ids, duration, job) && |job.media| == |ids| && Saves(job, result)
    requires forall i :: 0 <= i < |ids| ==> OneTimebase(v.streams[ids[i]].packets)
    ensures |job.slices| == |ids|
    ensures result.error.None? <==> forall i :: 0 <= i < |ids| ==>
              job.media[i].path && v.streams[ids[i]].header && job.media[i].budget >= |job.slices[i]| + 2
    ensures result.error.Some? ==>
              result.error.value in {OpenFailed, WriteFailed(Some(Library)), RangeMismatch(Some(Library))}
  {
    hide RingOk, Saves, Correct, Selectable, InOrder, Writable, SameTimebase;
    RingSnapshotSaves(v, ids, duration, job, result);
    forall i | 0 <= i < |ids| ensures InOrder(job.slices[i], job.media[i], job.start) {
      SliceOfRing(v, ids, duration, job, i);
      PartOfOneTimebase(job.slices[i], v.streams[ids[i]].packets);
      OneTimebaseIsInOrder(job.slices[i], job.media[i], job.start);
    }
    forall i | 0 <= i < |ids|
      ensures StreamSaves(v, ids, job, i) <==>
              job.media[i].path && v.streams[ids[i]].header && job.media[i].budget >= |job.slices[i]| + 2
    {
    }
    hide StreamSaves;
  }

  lemma PartOfOneTimebase(s: seq<Packet>, t: seq<Packet>)
    requires OneTimebase(t) && forall q :: q in s ==> q in t
    ensures OneTimebase(s)
  {
    var num, den :| SameTimebase(t, num, den);
    assert SameTimebase(s, num, den);
  }

  function TwoTimebases(): seq<Packet> {
    [Packet(0, 0, 0, 1, 1000, true, 1), Packet(5, 5, 5, 1, 1000, false, 1), Packet(6, 6, 6, 1, 1_000_000, false, 1)]
  }

  lemma TwoTimebasesMuxed()
    ensures var m := Muxed(TwoTimebases(), 0);
            && |m| == 3 && Spans(TwoTimebases(), 0, 6)
            && m[0].dts == 0 && m[0].tbNum == 1 && m[0].tbDen == 1000 && m[0].pts == 0
            && m[1].dts == 5 && m[1].tbNum == 1 && m[1].tbDen == 1000
            && m[2].dts == 6 && m[2].tbNum == 1 && m[2].tbDen == 1_000_000
  {
    hide DecodeSort, RescaleQ, Muxed;
    var s := TwoTimebases();
    assert StableSortOf(s, s);
    assert s[0] in s && s[2] in s;
    MuxedExactly(s, 0, s);
  }

  /** A stream that changes its timebase: the DTS origin is subtracted in raw ticks, and the save fails on its own. */
  lemma MixedTimebaseFails(config: SnapshotConfig, m: Medium)
    requires Opens(config, m) && m.budget >= 4 && m.tick == Timebase(1, 1000)
    ensures SavedStream(TwoTimebases(), config, m, 0, 6).0 == Some(WriteFailed(Some(DtsOrder)))
  {
    TwoTimebasesMuxed();
    MuxedMembers(TwoTimebases(), 0);
    hide Muxed, SavedStream, Spans;
    var w, s := Begun(m.(budget := 1)), Muxed(TwoTimebases(), 0);
    assert s[0] in s && s[1] in s && s[2] in s;
    assert MuxedDts(w.Anchored(s[0]), s[1]) == 5 && MuxedDts(w.Anchored(s[0]), s[2]) == 0;
    assert !InOrder(TwoTimebases(), m, 0);
    SliceSaves(TwoTimebases(), config, m, 0, 6);
  }

  // ---- the consumer

  datatype RequestError = InvalidPaths | SnapshotRejected(reason: Rejection) | StreamCountMismatch | SaveAlreadyActive

  /** Why the ring yields no snapshot of the named streams, in order. */
  ghost function SnapshotRefusal(v: Ring, ids: seq<nat>, duration: nat): Option<Rejection>
    requires RingOk(v)
  {
    if !v.retention then Some(RetentionDisabled)
    else if ids == [] then Some(NoReplayStreams)
    else if duration == 0 then Some(InvalidDuration)
    else if !Covered(v.streams, ids) then Some(InsufficientHistory)
    else
      RingSelectable(v, ids);
      Refusal(Selection(v.streams, ids), duration)
  }

  lemma SliceCount(sel: seq<seq<Packet>>, duration: nat, attempt: Attempt)
    requires Selectable(sel) && Correct(sel, duration, attempt) && attempt.Taken?
    ensures |attempt.slices| == |sel|
  {
    hide Window, Sorted, BestStart, RunEnd;
    WindowExists(sel);
  }

  lemma RingSelectable(v: Ring, ids: seq<nat>)
    requires RingOk(v) && ids != [] && Covered(v.streams, ids)
    ensures Selectable(Selection(v.streams, ids))
  {
    hide Sorted;
    SelectionIsSelectable(v.streams, ids);
  }

  /** Why a save of the named streams to `files` files is turned down, in order. */
  ghost function RequestRefusal(v: Ring, ids: seq<nat>, duration: nat, files: nat, active: bool): Option<RequestError>
    requires RingOk(v)
  {
    if files == 0 then Some(InvalidPaths)
    else
      var refusal := SnapshotRefusal(v, ids, duration);
      if refusal.Some? then Some(SnapshotRejected(refusal.value))
      else if |ids| != files then Some(StreamCountMismatch)
      else if active then Some(SaveAlreadyActive)
      else None
  }

  class SynchronizedReplayConsumer {
    const capture: SynchronizedCaptureSession
    var active: bool
    var worker: Option<Job>
    var lastResult: Option<SaveResult>
    var lastRequestError: Option<RequestError>

    ghost predicate Valid()
      reads this
    {
      active <==> worker.Some?
    }

    constructor (capture: SynchronizedCaptureSession)
      ensures Valid() && this.capture == capture && !active && lastResult.None? && lastRequestError.None?
    {
      this.capture, active, worker, lastResult, lastRequestError := capture, false, None, None, None;
    }

    /** The snapshot of a request, or why there is none. */
    method Attempt(duration: nat, ids: seq<nat>) returns (attempt: Attempt, configs: seq<SnapshotConfig>)
      requires capture.Valid()
      ensures var all := if ids == [] then AllIds(|capture.streams|) else ids;
              && SnapshotRefusal(capture.View(), all, duration) ==
                 (if attempt.Rejected? then Some(attempt.reason) else None)
              && (attempt.Taken? ==>
                    && |attempt.slices| == |all| > 0 && capture.replayRetentionEnabled
                    && forall media ::
                         JobOf(capture.View(), all, duration,
                               Job(attempt.start, attempt.end, attempt.slices, configs, media)))
    {
      hide RingOk, Correct, Selectable, Refusal;
      if |ids| == 0 {
        attempt, configs := capture.SnapshotCommonRange(duration);
      } else {
        attempt, configs := capture.SnapshotCommonRangeDetailed(ids, duration);
      }
      ghost var v, all := capture.View(), if ids == [] then AllIds(|capture.streams|) else ids;
      if v.retention && all != [] && duration > 0 && Covered(v.streams, all) {
        RefusedExactly(Selection(v.streams, all), duration, attempt);
        if attempt.Taken? {
          SliceCount(Selection(v.streams, all), duration, attempt);
        }
      }
    }

    /** Takes the snapshot at once and leaves the writing to the worker. Without stream ids, all streams are saved. */
    method RequestSave(media: seq<Medium>, duration: nat, ids: seq<nat>) returns (ok: bool)
      requires Valid() && capture.Valid()
      modifies this
      ensures Valid()
      ensures var all := if ids == [] then AllIds(|capture.streams|) else ids;
              && lastRequestError == RequestRefusal(capture.View(), all, duration, |media|, old(active))
              && (ok <==> lastRequestError.None?)
              && (ok ==> active && JobOf(capture.View(), all, duration, worker.value))
      ensures ok ==> !old(active) && lastResult.None? && capture.replayRetentionEnabled
      ensures ok ==> worker.value.media == media && |worker.value.slices| == |media| > 0
      ensures !ok ==> active == old(active) && worker == old(worker) && lastResult == old(lastResult)
    {
      hide RingOk, JobOf, SnapshotRefusal;
      if |media| == 0 {
        lastRequestError := Some(InvalidPaths);
        return false;
      }
      var attempt, configs := Attempt(duration, ids);
      if attempt.Rejected? {
        lastRequestError := Some(SnapshotRejected(attempt.reason));
        return false;
      }
      if |attempt.slices| != |media| {
        lastRequestError := Some(StreamCountMismatch);
        return false;
      }
      if active {
        lastRequestError := Some(SaveAlreadyActive);
        return false;
      }
      active, lastRequestError, lastResult := true, None, None;
      worker := Some(Job(attempt.start, attempt.end, attempt.slices, configs, media));
      return true;
    }

    /** The worker finishes. What it saves is the snapshot of the request, whatever was ingested since. */
    method Complete()
      requires Valid()
      modifies this
      ensures Valid() && !active && lastRequestError == old(lastRequestError)
      ensures old(worker).None? ==> lastResult == old(lastResult)
      ensures old(worker).Some? ==> lastResult.Some? && Saves(old(worker).value, lastResult.value)
    {
      hide Saves;
      if worker.Some? {
        var result := WriteSnapshot(worker.value);
        lastResult, active, worker := Some(result), false, None;
      }
    }

    method Wait()
      requires Valid()
      modifies this
      ensures Valid() && !active
      ensures old(worker).None? ==> lastResult == old(lastResult)
      ensures old(worker).Some? ==> lastResult.Some? && Saves(old(worker).value, lastResult.value)
    {
      Complete();
    }
  }
}
