/** What a windowed flush lets through and what it holds back, and the bound on what waits. */
module MkvWindow {
  import opened Packets
  import opened DecodeOrder
  import opened MkvWriter
  import opened MkvSink

  // ---- what waits is bounded

  lemma {:induction false} AfterIsSmaller(s: seq<Packet>, w: int)
    ensures SizeOf(DtsAfter(s, w)) <= SizeOf(s)
  {
    if |s| > 0 {
      var init, last := s[..|s| - 1], s[|s| - 1];
      AfterIsSmaller(init, w);
      Snoc(s);
      DtsAfterSnoc(init, last, w);
      SizeSnoc(DtsAfter(init, w), last);
    }
  }

  /** In every run the byte count is that of the packets that wait, and within the capacity. */
  lemma {:induction false} RunWithinCapacity(s: Reorder, calls: seq<Call>)
    requires s.pendingBytes == SizeOf(s.pending) <= s.capacity
    ensures var t := Play(s, calls).0; t.pendingBytes == SizeOf(t.pending) <= t.capacity == s.capacity
  {
    hide DecodeSort, DtsUpTo, DtsAfter, SizeOf, WrittenAll, Window;
    if |calls| > 0 {
      var init, last := calls[..|calls| - 1], calls[|calls| - 1];
      RunWithinCapacity(s, init);
      var t := Play(s, init).0;
      match last
      case Offer(p) => SizeSnoc(t.pending, p);
      case Commit =>
        if Mark(t).Some? {
          AfterIsSmaller(t.pending, Mark(t).value);
        }
    }
  }

  /** In every run in order, a packet is refused exactly if it is empty, does not fit beside what waits, or has another
      timebase than the packets before it; otherwise it waits behind them. */
  lemma RefusedExactly(s: Reorder, calls: seq<Call>, p: Packet)
    requires Streaming(s) && s.arrived == [] && InOrder(s, calls) && Play(s, calls).1 && s.pendingBytes <= s.capacity
    ensures var t := Play(s, calls).0;
            var (u, ok) := Offered(t, p);
            && (ok <==>
                  && 0 < p.size && SizeOf(t.pending) + p.size <= s.capacity
                  && forall q :: q in Offers(calls) ==> q.tbNum == p.tbNum && q.tbDen == p.tbDen)
            && u.pending == (if ok then t.pending + [p] else t.pending)
            && u.writer == t.writer
  {
    hide DecodeSort, DtsUpTo, DtsAfter, SizeOf, Play, Healthy, SafetyTicks;
    var t := Play(s, calls).0;
    PlayKeepsStreaming(s, calls);
    RunWithinCapacity(s, calls);
    if t.arrived != [] {
      assert t.arrived[0] in t.arrived;
    }
  }

  // ---- what a commit writes

  /** `g` decodes last of all packets offered, and they share its timebase. */
  ghost predicate Newest(offers: seq<Packet>, g: Packet) {
    g in offers && forall q :: q in offers ==> q.dts <= g.dts && q.tbNum == g.tbNum && q.tbDen == g.tbDen
  }

  /** Everything up to `mark` is written, and everything above it waits. */
  ghost predicate DividedAt(s: Reorder, offers: seq<Packet>, mark: int) {
    && (forall q :: q in s.writer.written <==> q in offers && q.dts <= mark)
    && (forall q :: q in s.pending <==> q in offers && q.dts > mark)
  }

  /** The commit leaves exactly the packets of the last `ticks` before `g` waiting. */
  ghost predicate HoldsBack(s: Reorder, t: Reorder, ok: bool, safety: nat, offers: seq<Packet>, g: Packet,
                            ticks: int)
  {
    && Newest(offers, g)
    && OnTime(ticks, if safety < INT64_MAX then safety else INT64_MAX, g.tbNum, g.tbDen)
    && if g.dts - ticks <= INT64_MIN then t == s && ok else ok ==> DividedAt(t, offers, g.dts - ticks)
  }

  lemma StreamingIsDivided(s: Reorder)
    requires Streaming(s) && s.flushedTo.Some?
    ensures DividedAt(s, s.arrived, s.flushedTo.value)
  {
    hide DecodeSort, DtsUpTo, DtsAfter, SizeOf, Healthy, SafetyTicks;
    var mark := s.flushedTo.value;
    DtsMembers(s.arrived, mark);
    SortMembers(DtsUpTo(s.arrived, mark));
  }

  lemma NewestOf(s: Reorder, g: Packet)
    requires Streaming(s) && g in s.arrived && s.maxDts == Some(g.dts)
    ensures Newest(s.arrived, g) && s.tbNum == g.tbNum && s.tbDen == g.tbDen
  {
    hide DecodeSort, DtsUpTo, DtsAfter, SizeOf, Healthy, SafetyTicks;
  }

  /** In every run in order, a commit that succeeds has written exactly the packets that decode at least the reorder
      window before the newest one, whatever was committed before; the window is the configured time, to the nearest
      tick. */
  lemma CommitExactly(s: Reorder, calls: seq<Call>)
    requires Streaming(s) && s.arrived == [] && InOrder(s, calls) && Play(s, calls).1
    ensures var t := Play(s, calls).0;
            var (u, ok) := CommittedThrough(t);
            if Offers(calls) == [] then u == t && ok
            else exists g, ticks :: HoldsBack(t, u, ok, s.safety, Offers(calls), g, ticks)
  {
    hide DecodeSort, DtsUpTo, DtsAfter, SizeOf, Play, WrittenAll, InOrder, Streaming, Offers, RescaleQ;
    var t := Play(s, calls).0;
    PlayKeepsStreaming(s, calls);
    FreshIsBehind(s);
    PlayStaysBehind(s, calls);
    CommitKeepsStreaming(t);
    MaxIsKnown(t);
    if Offers(calls) != [] {
      var g :| g in Offers(calls) && g.dts == t.maxDts.value && g.tbNum == t.tbNum && g.tbDen == t.tbDen;
      NewestOf(t, g);
      RescaledOnTime(if t.safety < INT64_MAX then t.safety else INT64_MAX, t.tbNum, t.tbDen);
      var (u, ok) := CommittedThrough(t);
      if Mark(t).Some? && ok {
        StreamingIsDivided(u);
      }
      assert HoldsBack(t, u, ok, s.safety, Offers(calls), g, SafetyTicks(t));
    }
  }

  lemma MaxIsKnown(s: Reorder)
    requires Streaming(s)
    ensures s.maxDts.Some? <==> s.arrived != []
  {
    if s.arrived != [] {
      assert s.arrived[0] in s.arrived;
    }
  }
}
