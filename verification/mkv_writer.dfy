/** Timestamp rescaling and the packet-only MKV writer. The container library is an oracle: a writer accepts
    `budget` more library calls (packets, trailer) before the library reports an error. */
module MkvWriter {
  import opened Packets
  import opened DecodeOrder

  const NANOSECONDS: int := 1_000_000_000

  // ---- av_rescale_q: exact rescaling to the nearest tick, halves away from zero

  function ScaleNat(a: nat, b: nat, c: nat): int
    requires c > 0
  {
    (a * b + c / 2) / c
  }

  function Scale(a: int, b: nat, c: nat): int
    requires c > 0
  {
    if a < 0 then -ScaleNat(-a, b, c) else ScaleNat(a, b, c)
  }

  /** From timebase `num/den` to timebase `num'/den'`. */
  function RescaleQ(a: int, num: int, den: int, num': int, den': int): int
    requires num > 0 && den > 0 && num' > 0 && den' > 0
  {
    Multiplied(den, num');
    Scale(a, num * den', den * num')
  }

  lemma Multiplied(x: int, y: int)
    requires x > 0 && y > 0
    ensures x * y > 0
  {
  }

  lemma QuotientLess(x: int, y: int, c: int)
    requires c > 0 && x / c < y / c
    ensures x < y
  {
    var q, r := x / c, y / c;
    assert x == q * c + x % c && y == r * c + y % c;
    MultiplyGrows(1, r - q, c);
    assert (r - q) * c == r * c - q * c;
  }

  lemma DivideGrows(x: int, y: int, c: int)
    requires x <= y && c > 0
    ensures x / c <= y / c
  {
    if y / c < x / c {
      QuotientLess(y, x, c);
      assert false;
    }
  }

  lemma MultiplyGrows(x: nat, y: nat, b: nat)
    requires x <= y
    ensures x * b <= y * b
  {
  }

  lemma ScaleNatMonotone(x: nat, y: nat, b: nat, c: nat)
    requires x <= y && c > 0
    ensures 0 <= ScaleNat(x, b, c) <= ScaleNat(y, b, c)
  {
    MultiplyGrows(x, y, b);
    MultiplyGrows(0, x, b);
    DivideGrows(x * b + c / 2, y * b + c / 2, c);
    DivideGrows(0, x * b + c / 2, c);
  }

  /** Rescaling is monotone. */
  lemma ScaleMonotone(x: int, y: int, b: nat, c: nat)
    requires x <= y && c > 0
    ensures Scale(x, b, c) <= Scale(y, b, c)
  {
    hide ScaleNat;
    if 0 <= x {
      ScaleNatMonotone(x, y, b, c);
    } else if y < 0 {
      ScaleNatMonotone(-y, -x, b, c);
    } else {
      ScaleNatMonotone(0, -x, b, c);
      ScaleNatMonotone(0, y, b, c);
      ScaleNatMonotone(-x, -x, b, c);
    }
  }

  lemma RescaleMonotone(x: int, y: int, num: int, den: int, num': int, den': int)
    requires num > 0 && den > 0 && num' > 0 && den' > 0 && x <= y
    ensures RescaleQ(x, num, den, num', den') <= RescaleQ(y, num, den, num', den')
  {
    Multiplied(den, num');
    Multiplied(num, den');
    ScaleMonotone(x, y, num * den', den * num');
  }

  lemma RescaleZero(num: int, den: int, num': int, den': int)
    requires num > 0 && den > 0 && num' > 0 && den' > 0
    ensures RescaleQ(0, num, den, num', den') == 0
  {
    Multiplied(den, num');
    var c := den * num';
    assert c / 2 < c && (c / 2) / c == 0;
  }

  /** Between equal timebases nothing changes. */
  lemma RescaleSame(x: int, tick: Timebase)
    ensures RescaleQ(x, tick.num, tick.den, tick.num, tick.den) == x
  {
    Multiplied(tick.num, tick.den);
    var c := tick.num * tick.den;
    assert tick.den * tick.num == c;
    QuotientIs(if x < 0 then -x else x, c / 2, c);
  }

  lemma QuotientIs(x: nat, r: nat, c: nat)
    requires r < c
    ensures (x * c + r) / c == x
  {
    var q := (x * c + r) / c;
    assert x * c + r == q * c + (x * c + r) % c;
    assert (x - q) * c == x * c - q * c && (q - x) * c == q * c - x * c;
    if q < x {
      MultiplyGrows(1, x - q, c);
    } else if q > x {
      MultiplyGrows(1, q - x, c);
    }
  }

  lemma QuotientBounds(n: nat, c: nat)
    requires c > 0
    ensures (n / c) * c <= n < (n / c) * c + c
  {
    assert n == (n / c) * c + n % c;
  }

  /** The nearest multiple; a value half way goes up. */
  lemma ScaleNatNearest(a: nat, b: nat, c: nat)
    requires c > 0
    ensures var r := ScaleNat(a, b, c); r >= 0 && 0 <= 2 * (a * b - r * c) + c < 2 * c
  {
    MultiplyGrows(0, a, b);
    QuotientBounds(a * b + c / 2, c);
    DivideGrows(0, a * b + c / 2, c);
  }

  /** Counting ticks of `num/den`, the value of `t` ticks of `num'/den'` is nearest to `a`, halves away from zero. */
  ghost predicate Nearest(t: int, a: int, num: int, den: int, num': int, den': int) {
    var exact, rounded := a * (num * den'), t * (den * num');
    if a < 0 then -(den * num') < 2 * (exact - rounded) <= den * num'
    else -(den * num') <= 2 * (exact - rounded) < den * num'
  }

  /** Rescaling goes to the nearest tick, and to no other. */
  lemma RescaleNearest(a: int, num: int, den: int, num': int, den': int, t: int)
    requires num > 0 && den > 0 && num' > 0 && den' > 0
    ensures t == RescaleQ(a, num, den, num', den') <==> Nearest(t, a, num, den, num', den')
  {
    hide ScaleNat;
    Multiplied(den, num');
    Multiplied(num, den');
    var b, c, r := num * den', den * num', RescaleQ(a, num, den, num', den');
    ScaleNatNearest(if a < 0 then -a else a, b, c);
    if a < 0 {
      Negated(a, b);
      Negated(r, c);
    }
    OneTick(t, r, c);
  }

  /** A time of `t` ticks of `num/den` seconds is at most half a tick off `elapsed` nanoseconds. */
  ghost predicate OnTime(t: int, elapsed: int, num: int, den: int) {
    -(num * NANOSECONDS) <= 2 * (t * num * NANOSECONDS - elapsed * den) <= num * NANOSECONDS
  }

  lemma RescaledOnTime(elapsed: int, num: int, den: int)
    requires num > 0 && den > 0
    ensures OnTime(RescaleQ(elapsed, 1, NANOSECONDS, num, den), elapsed, num, den)
  {
    var t := RescaleQ(elapsed, 1, NANOSECONDS, num, den);
    RescaleNearest(elapsed, 1, NANOSECONDS, num, den, t);
    Reordered(t, num, NANOSECONDS);
    assert elapsed * (1 * den) == elapsed * den;
    hide RescaleQ;
  }

  lemma Reordered(x: int, y: int, z: int)
    ensures x * (z * y) == x * y * z && z * y == y * z
  {
  }

  lemma Negated(x: int, y: int)
    ensures (-x) * y == -(x * y)
  {
  }

  lemma OneTick(t: int, r: int, c: int)
    requires c > 0
    ensures t > r ==> t * c >= r * c + c
    ensures t < r ==> t * c + c <= r * c
  {
    assert (t - r) * c == t * c - r * c;
    if t > r {
      MultiplyGrows(1, t - r, c);
    } else if t < r {
      MultiplyGrows(1, r - t, c);
      assert (r - t) * c == r * c - t * c;
    }
  }

  // ---- the writer

  datatype WriterError = InvalidPacket | DtsOrder | Library

  type pos = x: int | x > 0 witness 1

  datatype Timebase = Timebase(num: pos, den: pos)

  /** `tick` is the timebase the container settles on when its header is written; `tbNum`/`tbDen` is the one in use. */
  datatype Writer = Writer(isOpen: bool, tbNum: int, tbDen: int, origin: Option<int>, lastDts: Option<int>,
                           first: Option<nat>, last: nat, written: seq<Packet>, error: Option<WriterError>,
                           budget: nat, tick: Timebase)
  {
    function Failing(reason: WriterError): Writer {
      if error.Some? then this else this.(error := Some(reason))
    }

    /** The origin is the smaller timestamp of the first packet offered. */
    function Anchored(p: Packet): Writer {
      if origin.Some? then this else this.(origin := Some(if p.pts < p.dts then p.pts else p.dts))
    }
  }

  predicate Writable(p: Packet) {
    p.size > 0 && p.tbNum > 0 && p.tbDen > 0
  }

  predicate Usable(w: Writer) {
    w.isOpen && w.tbNum > 0 && w.tbDen > 0
  }

  function MuxedDts(w: Writer, p: Packet): int
    requires Usable(w) && Writable(p) && w.origin.Some?
  {
    RescaleQ(p.dts - w.origin.value, p.tbNum, p.tbDen, w.tbNum, w.tbDen)
  }

  /** Times are counted from the smaller timestamp of the first packet: neither of its times is negative, and one of
      them is zero; later packets change nothing. */
  lemma CountedFromFirst(w: Writer, p: Packet, q: Packet)
    requires Usable(w) && Writable(p) && w.origin.None?
    ensures var v := w.Anchored(p);
            && v.origin.Some? && v.Anchored(q) == v
            && RescaleQ(p.pts - v.origin.value, p.tbNum, p.tbDen, w.tbNum, w.tbDen) >= 0
            && RescaleQ(p.dts - v.origin.value, p.tbNum, p.tbDen, w.tbNum, w.tbDen) >= 0
            && (p.pts == v.origin.value || p.dts == v.origin.value)
  {
    var o := w.Anchored(p).origin.value;
    RescaleZero(p.tbNum, p.tbDen, w.tbNum, w.tbDen);
    RescaleMonotone(0, p.pts - o, p.tbNum, p.tbDen, w.tbNum, w.tbDen);
    RescaleMonotone(0, p.dts - o, p.tbNum, p.tbDen, w.tbNum, w.tbDen);
  }

  function Written(w: Writer, p: Packet): (r: (Writer, bool))
    ensures r.0.isOpen == w.isOpen
  {
    if !Usable(w) || !Writable(p) then (w.Failing(InvalidPacket), false)
    else
      var v := w.Anchored(p);
      if v.budget == 0 then (v.Failing(Library), false)
      else if v.lastDts.Some? && MuxedDts(v, p) < v.lastDts.value then (v.Failing(DtsOrder), false)
      else
        (v.(budget := v.budget - 1, lastDts := Some(MuxedDts(v, p)),
            first := Some(if v.first.Some? && v.first.value < p.cts then v.first.value else p.cts),
            last := if p.cts > v.last then p.cts else v.last,
            written := v.written + [p]),
         true)
  }

  /** Writes packets until one is refused. */
  function WrittenAll(w: Writer, packets: seq<Packet>): (Writer, bool) {
    if |packets| == 0 then (w, true)
    else
      var (v, ok) := WrittenAll(w, packets[..|packets| - 1]);
      if ok then Written(v, packets[|packets| - 1]) else (v, false)
  }

  /** The smallest and the greatest CTS of a list. */
  ghost predicate Spans(s: seq<Packet>, first: nat, last: nat) {
    && HasCts(s, first) && HasCts(s, last)
    && forall q :: q in s ==> first <= q.cts <= last
  }

  ghost predicate SameTimebase(s: seq<Packet>, num: int, den: int) {
    forall q :: q in s ==> q.tbNum == num && q.tbDen == den
  }

  /** A writer without error: its bookkeeping describes exactly what it wrote. */
  ghost predicate Healthy(w: Writer) {
    && Usable(w) && w.error.None?
    && (w.written == [] ==> w.lastDts.None? && w.first.None? && w.last == 0)
    && (w.written != [] ==>
          var p := w.written[|w.written| - 1];
          && w.origin.Some? && Writable(p) && w.lastDts == Some(MuxedDts(w, p))
          && w.first.Some? && Spans(w.written, w.first.value, w.last))
  }

  lemma SpansAppend(s: seq<Packet>, p: Packet, first: nat, last: nat)
    requires s != [] ==> Spans(s, first, last)
    requires s == [] ==> first == p.cts && last <= p.cts
    ensures Spans(s + [p], if first < p.cts then first else p.cts, if p.cts > last then p.cts else last)
  {
    assert p in s + [p];
    if s != [] {
      assert forall q :: q in s ==> q in s + [p];
    }
  }

  /** A packet in the timebase and the decode order of its predecessors is written unless the library refuses. */
  lemma WriteInOrder(w: Writer, p: Packet)
    requires Healthy(w) && Writable(p) && SameTimebase(w.written, p.tbNum, p.tbDen)
    requires w.written != [] ==> w.written[|w.written| - 1].dts <= p.dts
    ensures var (v, ok) := Written(w, p);
            && (ok <==> w.budget > 0)
            && (ok ==> Healthy(v) && v.written == w.written + [p] && v.budget == w.budget - 1
                       && v.tbNum == w.tbNum && v.tbDen == w.tbDen)
            && (!ok ==> v.error == Some(Library) && v.written == w.written)
  {
    if w.written != [] {
      var q := w.written[|w.written| - 1];
      assert q in w.written;
      RescaleMonotone(q.dts - w.origin.value, p.dts - w.origin.value, p.tbNum, p.tbDen, w.tbNum, w.tbDen);
      SpansAppend(w.written, p, w.first.value, w.last);
    } else {
      SpansAppend(w.written, p, p.cts, 0);
    }
  }

  ghost predicate DtsSorted(s: seq<Packet>) {
    forall i, j :: 0 <= i < j < |s| ==> s[i].dts <= s[j].dts
  }

  lemma DecodeSortedByDts(s: seq<Packet>)
    requires DecodeSorted(s)
    ensures DtsSorted(s)
  {
    forall i, j | 0 <= i < j < |s| ensures s[i].dts <= s[j].dts {
      assert !DecodesBefore(s[j], s[i]);
    }
  }

  /** A DTS-sorted batch that continues what was written is written completely or up to a library refusal. */
  lemma {:induction false} WriteSorted(w: Writer, packets: seq<Packet>, num: int, den: int)
    requires Healthy(w) && DtsSorted(w.written + packets) && SameTimebase(w.written + packets, num, den)
    requires forall q :: q in packets ==> Writable(q)
    ensures var (v, ok) := WrittenAll(w, packets);
            && (ok <==> |packets| <= w.budget)
            && (ok ==> Healthy(v) && v.written == w.written + packets && v.budget == w.budget - |packets|
                       && v.tbNum == w.tbNum && v.tbDen == w.tbDen)
            && (!ok ==> v.error == Some(Library))
  {
    hide Healthy, Written, Writable, DtsSorted, SameTimebase;
    if |packets| > 0 {
      var n := |packets| - 1;
      var init, p, x := packets[..n], packets[n], w.written + packets[..n];
      assert w.written + packets == x + [p];
      InitOf(x, p, num, den);
      WriteSorted(w, init, num, den);
      var (v, ok) := WrittenAll(w, init);
      if ok {
        WriteInOrder(v, p);
      }
    } else {
      assert w.written + packets == w.written;
    }
  }

  lemma InitOf(x: seq<Packet>, p: Packet, num: int, den: int)
    requires DtsSorted(x + [p]) && SameTimebase(x + [p], num, den)
    ensures DtsSorted(x) && SameTimebase(x, p.tbNum, p.tbDen) && p.tbNum == num && p.tbDen == den
    ensures x != [] ==> x[|x| - 1].dts <= p.dts
  {
    var s := x + [p];
    assert p in s && (forall q :: q in x ==> q in s) && (forall i :: 0 <= i < |x| ==> s[i] == x[i]) && s[|x|] == p;
  }

  lemma WriteKeepsHealthy(w: Writer, p: Packet)
    requires Healthy(w) && Written(w, p).1
    ensures var v := Written(w, p).0;
            && Healthy(v) && v.written == w.written + [p] && v.budget == w.budget - 1
            && v.tbNum == w.tbNum && v.tbDen == w.tbDen && v.origin == w.Anchored(p).origin
  {
    hide RescaleQ;
    if w.written != [] {
      SpansAppend(w.written, p, w.first.value, w.last);
    } else {
      SpansAppend(w.written, p, p.cts, 0);
    }
  }

  /** In the ticks of the container, counted from the first packet, the DTS values never decrease. */
  ghost predicate InMuxOrder(w: Writer, s: seq<Packet>)
    requires Usable(w) && forall q :: q in s ==> Writable(q)
  {
    forall i :: 0 < i < |s| ==> MuxedDts(w.Anchored(s[0]), s[i - 1]) <= MuxedDts(w.Anchored(s[0]), s[i])
  }

  lemma InMuxOrderSnoc(w: Writer, s: seq<Packet>, p: Packet)
    requires Usable(w) && s != [] && Writable(p) && forall q :: q in s ==> Writable(q)
    ensures InMuxOrder(w, s + [p]) <==>
              InMuxOrder(w, s) && MuxedDts(w.Anchored(s[0]), s[|s| - 1]) <= MuxedDts(w.Anchored(s[0]), p)
  {
    hide MuxedDts;
    var t := s + [p];
    assert t[0] == s[0] && t[|s|] == p && forall i :: 0 <= i < |s| ==> t[i] == s[i];
    if InMuxOrder(w, t) {
      assert MuxedDts(w.Anchored(t[0]), t[|s| - 1]) <= MuxedDts(w.Anchored(t[0]), t[|s|]);
      forall i | 0 < i < |s| ensures MuxedDts(w.Anchored(s[0]), s[i - 1]) <= MuxedDts(w.Anchored(s[0]), s[i]) {
        assert t[i - 1] == s[i - 1] && t[i] == s[i];
      }
    }
  }

  /** The list continues in container ticks what the writer has written. */
  ghost predicate Continues(w: Writer, s: seq<Packet>)
    requires Usable(w) && forall q :: q in s ==> Writable(q)
  {
    && InMuxOrder(w, s)
    && (s != [] && w.lastDts.Some? ==> w.lastDts.value <= MuxedDts(w.Anchored(s[0]), s[0]))
  }

  lemma ContinuesSnoc(w: Writer, s: seq<Packet>, p: Packet)
    requires Usable(w) && Writable(p) && forall q :: q in s ==> Writable(q)
    ensures s == [] ==> (Continues(w, s + [p]) <==>
                           (w.lastDts.Some? ==> w.lastDts.value <= MuxedDts(w.Anchored(p), p)))
    ensures s != [] ==> (Continues(w, s + [p]) <==>
                           && Continues(w, s)
                           && MuxedDts(w.Anchored(s[0]), s[|s| - 1]) <= MuxedDts(w.Anchored(s[0]), p))
  {
    hide MuxedDts, InMuxOrder;
    if s == [] {
      OneInOrder(w, s + [p]);
    } else {
      InMuxOrderSnoc(w, s, p);
      assert (s + [p])[0] == s[0];
    }
  }

  /** The list is taken exactly if the library takes it and it continues what is written; what the writer is then. */
  ghost predicate TakenExactly(w: Writer, packets: seq<Packet>, v: Writer, ok: bool)
    requires Usable(w) && forall q :: q in packets ==> Writable(q)
  {
    && (ok <==> |packets| <= w.budget && Continues(w, packets))
    && (ok ==> Healthy(v) && v.written == w.written + packets && v.budget == w.budget - |packets|
               && v.tbNum == w.tbNum && v.tbDen == w.tbDen
               && v.origin == if packets == [] then w.origin else w.Anchored(packets[0]).origin)
    && (!ok ==> v.error in {Some(Library), Some(DtsOrder)})
    && (!ok && |packets| <= w.budget ==> v.error == Some(DtsOrder))
    && (!ok && Continues(w, packets) ==> v.error == Some(Library))
  }

  lemma TakesNothing(w: Writer)
    requires Healthy(w)
    ensures Usable(w) && TakenExactly(w, [], w, true)
  {
    hide Healthy, MuxedDts;
    HealthyIsUsable(w);
    assert w.written + [] == w.written;
  }

  lemma TakesNext(w: Writer, s: seq<Packet>, p: Packet, v: Writer, ok: bool)
    requires Healthy(w) && Usable(w) && Writable(p) && (forall q :: q in s ==> Writable(q)) && TakenExactly(w, s, v, ok)
    requires s == [] ==> (v, ok) == (w, true)
    ensures var (u, took) := if ok then Written(v, p) else (v, false);
            (forall q :: q in s + [p] ==> Writable(q)) && TakenExactly(w, s + [p], u, took)
  {
    hide Healthy, MuxedDts, Continues, Writable, Written;
    HealthyIsUsable(w);
    ContinuesSnoc(w, s, p);
    if ok {
      WriteNext(v, p);
      NextMuxedDts(v, w, s, p);
      assert w.written + (s + [p]) == w.written + s + [p];
      assert s != [] ==> (s + [p])[0] == s[0];
    }
  }

  /** Exactly when a writer takes a list of usable packets: the library must take them all, and their muxed DTS values
      must never decrease, starting from the last one written. Otherwise the first obstacle becomes the error. */
  lemma {:induction false} WriteExactly(w: Writer, packets: seq<Packet>)
    requires Healthy(w) && forall q :: q in packets ==> Writable(q)
    ensures Usable(w) && TakenExactly(w, packets, WrittenAll(w, packets).0, WrittenAll(w, packets).1)
  {
    hide Healthy, Written, Writable, TakenExactly;
    HealthyIsUsable(w);
    if |packets| == 0 {
      TakesNothing(w);
    } else {
      var init, p := packets[..|packets| - 1], packets[|packets| - 1];
      Snoc(packets);
      WriteExactly(w, init);
      TakesNext(w, init, p, WrittenAll(w, init).0, WrittenAll(w, init).1);
      assert init + [p] == packets;
    }
  }

  /** A writer that has not written yet takes a list exactly if the library does and it is in mux order. */
  lemma FreshContinues(w: Writer, packets: seq<Packet>)
    requires Healthy(w) && w.written == [] && forall q :: q in packets ==> Writable(q)
    ensures Continues(w, packets) <==> InMuxOrder(w, packets)
    ensures w.written + packets == packets
  {
    hide InMuxOrder;
  }

  lemma HealthyIsUsable(w: Writer)
    requires Healthy(w)
    ensures Usable(w) && (w.written == [] <==> w.lastDts.None?)
  {
  }

  lemma OneInOrder(w: Writer, s: seq<Packet>)
    requires Usable(w) && |s| <= 1 && forall q :: q in s ==> Writable(q)
    ensures InMuxOrder(w, s)
  {
  }

  /** The next packet is refused by the library first, then by the DTS order. */
  lemma WriteNext(v: Writer, p: Packet)
    requires Healthy(v) && Writable(p)
    ensures var (u, ok) := Written(v, p);
            && (ok <==> v.budget > 0 && (v.written != [] ==>
                                           && v.lastDts.Some? && v.origin.Some?
                                           && v.lastDts.value <= MuxedDts(v, p)))
            && (ok ==> Healthy(u) && u.written == v.written + [p] && u.budget == v.budget - 1
                       && u.tbNum == v.tbNum && u.tbDen == v.tbDen && u.origin == v.Anchored(p).origin)
            && (!ok ==> u.error == if v.budget == 0 then Some(Library) else Some(DtsOrder))
  {
    if Written(v, p).1 {
      WriteKeepsHealthy(v, p);
    }
  }

  /** What the writer compares the next packet with. */
  lemma NextMuxedDts(v: Writer, w: Writer, s: seq<Packet>, p: Packet)
    requires Healthy(v) && Healthy(w) && Writable(p) && v.tbNum == w.tbNum && v.tbDen == w.tbDen
    requires (forall q :: q in s ==> Writable(q)) && v.written == w.written + s
    requires s == [] ==> v == w
    requires s != [] ==> v.origin == w.Anchored(s[0]).origin
    ensures s == [] && v.written != [] ==>
              v.origin.Some? && v.lastDts.Some? && MuxedDts(v, p) == MuxedDts(w.Anchored(p), p)
    ensures s != [] ==>
              && v.origin.Some? && v.lastDts.Some? && Writable(s[0]) && Writable(s[|s| - 1])
              && MuxedDts(v, p) == MuxedDts(w.Anchored(s[0]), p)
              && v.lastDts.value == MuxedDts(w.Anchored(s[0]), s[|s| - 1])
  {
    hide RescaleQ;
    if s != [] {
      assert s[0] in s && s[|s| - 1] in s;
      assert v.written[|v.written| - 1] == s[|s| - 1];
    }
  }

  /** In one timebase, decode order is mux order. */
  lemma OneTimebaseInOrder(w: Writer, s: seq<Packet>, num: int, den: int)
    requires Usable(w) && DtsSorted(s) && SameTimebase(s, num, den)
    requires forall q :: q in s ==> Writable(q)
    ensures InMuxOrder(w, s)
  {
    hide RescaleQ;
    forall i | 0 < i < |s| ensures MuxedDts(w.Anchored(s[0]), s[i - 1]) <= MuxedDts(w.Anchored(s[0]), s[i]) {
      var o := w.Anchored(s[0]).origin.value;
      assert s[i - 1] in s && s[i] in s;
      RescaleMonotone(s[i - 1].dts - o, s[i].dts - o, num, den, w.tbNum, w.tbDen);
    }
  }

  datatype WriteResult = WriteResult(success: bool, first: nat, last: nat, packetCount: nat, error: Option<WriterError>)

  /** Closes the container: the trailer is one more library call. */
  function Closed(w: Writer): (Writer, WriteResult) {
    var first := if w.first.Some? then w.first.value else 0;
    if !w.isOpen then (w, WriteResult(w.error.None?, first, w.last, |w.written|, w.error))
    else
      var error := if w.budget == 0 then Some(Library) else w.error;
      (w.(isOpen := false, error := error, budget := if w.budget == 0 then 0 else w.budget - 1),
       WriteResult(w.budget > 0 && error.None?, first, w.last, |w.written|, error))
  }

  class MkvPacketWriter {
    var isOpen: bool
    var timebaseNum: int
    var timebaseDen: int
    var timestampOrigin: int
    var hasTimestampOrigin: bool
    var hasLastWrittenDts: bool
    var lastWrittenDts: int
    var hasPacket: bool
    var firstSourceCts: nat
    var lastSourceCts: nat
    var packetCount: nat
    var error: Option<WriterError>
    var libraryBudget: nat
    const tick: Timebase
    ghost var written: seq<Packet>

    ghost function View(): Writer
      reads this
    {
      Writer(isOpen, timebaseNum, timebaseDen, if hasTimestampOrigin then Some(timestampOrigin) else None,
             if hasLastWrittenDts then Some(lastWrittenDts) else None,
             if hasPacket then Some(firstSourceCts) else None, lastSourceCts, written, error, libraryBudget,
             tick)
    }

    ghost predicate Valid()
      reads this
    {
      && packetCount == |written|
      && (isOpen ==> timebaseNum > 0 && timebaseDen > 0)
      && (!hasPacket ==> firstSourceCts == 0)
    }

    constructor (libraryBudget: nat, tick: Timebase)
      ensures Valid() && !isOpen && View() == Writer(false, 0, 0, None, None, None, 0, [], None, libraryBudget, tick)
    {
      isOpen, timebaseNum, timebaseDen, hasTimestampOrigin, hasLastWrittenDts := false, 0, 0, false, false;
      timestampOrigin, lastWrittenDts := 0, 0;
      hasPacket, firstSourceCts, lastSourceCts, packetCount, error := false, 0, 0, 0, None;
      this.libraryBudget, this.tick, written := libraryBudget, tick, [];
    }

    /** `configured` stands for a path, dimensions and extra data that are all present. */
    method Open(configured: bool, num: int, den: int) returns (ok: bool)
      requires Valid()
      modifies this
      ensures Valid()
      ensures ok <==> !old(isOpen) && configured && num > 0 && den > 0 && old(libraryBudget) > 0
      ensures ok ==> View() == old(View()).(isOpen := true, tbNum := tick.num, tbDen := tick.den, error := None,
                                            budget := old(libraryBudget) - 1)
      ensures !ok ==> isOpen == old(isOpen)
    {
      error := None;
      if isOpen || !configured || num <= 0 || den <= 0 || libraryBudget == 0 {
        return false;
      }
      libraryBudget := libraryBudget - 1;
      isOpen, timebaseNum, timebaseDen := true, tick.num, tick.den;
      return true;
    }

    method Write(packet: Packet) returns (ok: bool)
      requires Valid()
      modifies this
      ensures Valid() && (View(), ok) == Written(old(View()), packet)
    {
      hide RescaleQ;
      if !isOpen || packet.size == 0 || packet.tbNum <= 0 || packet.tbDen <= 0 {
        error := if error.Some? then error else Some(InvalidPacket);
        return false;
      }
      ghost var w := View();
      if !hasTimestampOrigin {
        timestampOrigin := if packet.pts < packet.dts then packet.pts else packet.dts;
        hasTimestampOrigin := true;
      }
      assert View() == w.Anchored(packet);
      if libraryBudget == 0 {
        error := if error.Some? then error else Some(Library);
        return false;
      }
      var muxedDts := RescaleQ(packet.dts - timestampOrigin, packet.tbNum, packet.tbDen, timebaseNum, timebaseDen);
      if hasLastWrittenDts && muxedDts < lastWrittenDts {
        error := if error.Some? then error else Some(DtsOrder);
        return false;
      }
      Note(packet, muxedDts);
      return true;
    }

    /** The library took the packet. */
    method Note(packet: Packet, muxedDts: int)
      requires Valid() && libraryBudget > 0
      modifies this
      ensures Valid()
      ensures var v := old(View());
              View() == v.(budget := v.budget - 1, lastDts := Some(muxedDts),
                           first := Some(if v.first.Some? && v.first.value < packet.cts then v.first.value
                                         else packet.cts),
                           last := if packet.cts > v.last then packet.cts else v.last,
                           written := v.written + [packet])
    {
      firstSourceCts := if hasPacket && firstSourceCts < packet.cts then firstSourceCts else packet.cts;
      lastSourceCts := if packet.cts > lastSourceCts then packet.cts else lastSourceCts;
      NoteDts(muxedDts);
      written, packetCount := written + [packet], packetCount + 1;
    }

    method NoteDts(muxedDts: int)
      requires libraryBudget > 0
      modifies `libraryBudget, `lastWrittenDts, `hasLastWrittenDts, `hasPacket
      ensures libraryBudget == old(libraryBudget) - 1 && lastWrittenDts == muxedDts && hasLastWrittenDts && hasPacket
    {
      libraryBudget, lastWrittenDts, hasLastWrittenDts, hasPacket := libraryBudget - 1, muxedDts, true, true;
    }

    method Finalize() returns (result: WriteResult)
      requires Valid()
      modifies this
      ensures Valid() && (View(), result) == Closed(old(View()))
    {
      if !isOpen {
        return WriteResult(error.None?, firstSourceCts, lastSourceCts, packetCount, error);
      }
      var ok := libraryBudget > 0;
      if ok {
        libraryBudget := libraryBudget - 1;
      } else {
        error := Some(Library);
      }
      isOpen := false;
      return WriteResult(ok && error.None?, firstSourceCts, lastSourceCts, packetCount, error);
    }

    method Abort()
      requires Valid()
      modifies this
      ensures Valid() && View() == old(View()).(isOpen := false)
    {
      isOpen := false;
    }
  }
}
