/** The replay ring: per-stream packet history under one shared byte budget. */
module CaptureRing {
  import opened Packets

  // ---- eviction on the packet lists

  ghost function TotalSize(p: seq<seq<Packet>>): nat {
    if |p| == 0 then 0 else TotalSize(p[..|p| - 1]) + SizeOf(p[|p| - 1])
  }

  ghost function Count(p: seq<seq<Packet>>): nat {
    if |p| == 0 then 0 else Count(p[..|p| - 1]) + |p[|p| - 1]|
  }

  /** Every stream without the packets at or below the cutoff. */
  ghost function Above(p: seq<seq<Packet>>, cutoff: int): (r: seq<seq<Packet>>)
    ensures |r| == |p| && forall i :: 0 <= i < |p| ==> r[i] == From(p[i], cutoff + 1)
  {
    seq(|p|, i requires 0 <= i < |p| => From(p[i], cutoff + 1))
  }

  /** The smallest cutoff under which the remaining packets of all streams fit the budget; -1 cuts nothing. */
  ghost predicate LeastCutoff(p: seq<seq<Packet>>, budget: nat, cutoff: int) {
    && -1 <= cutoff
    && TotalSize(Above(p, cutoff)) <= budget
    && forall c :: -1 <= c < cutoff ==> TotalSize(Above(p, c)) > budget
  }

  /** `r` is `s` from its first keyframe on. */
  ghost predicate FromFirstKeyframe(r: seq<Packet>, s: seq<Packet>) {
    exists k :: 0 <= k <= |s| && r == s[k..]
      && (forall i :: 0 <= i < k ==> !s[i].keyframe) && (k < |s| ==> s[k].keyframe)
  }

  ghost predicate Ordered(p: seq<seq<Packet>>) {
    forall i :: 0 <= i < |p| ==> Sorted(p[i])
  }

  /** What eviction leaves: a common temporal suffix, then whole GOPs only. */
  ghost predicate EvictedTo(before: seq<seq<Packet>>, after: seq<seq<Packet>>, budget: nat) {
    && |after| == |before|
    && exists cutoff :: LeastCutoff(before, budget, cutoff) &&
         forall i :: 0 <= i < |before| ==> FromFirstKeyframe(after[i], From(before[i], cutoff + 1))
  }

  lemma AboveNothing(p: seq<seq<Packet>>)
    ensures Above(p, -1) == p
  {
    forall i | 0 <= i < |p| ensures From(p[i], 0) == p[i] {
      FromAll(p[i], 0);
    }
  }

  lemma AboveTwice(p: seq<seq<Packet>>, c: int, d: int)
    requires c <= d
    ensures Above(Above(p, c), d) == Above(p, d)
  {
    forall i | 0 <= i < |p| ensures Above(Above(p, c), d)[i] == Above(p, d)[i] {
      FromFrom(p[i], c + 1, d + 1);
    }
  }

  /** No packet of any stream lies between `c` and `oldest`. */
  lemma AboveGap(p: seq<seq<Packet>>, c: int, d: int, oldest: int)
    requires c <= d < oldest
    requires forall i, q :: 0 <= i < |p| && q in Above(p, c)[i] ==> oldest <= q.cts
    ensures Above(p, d) == Above(p, c)
  {
    forall i | 0 <= i < |p| ensures Above(p, d)[i] == Above(p, c)[i] {
      FromFrom(p[i], c + 1, d + 1);
      var rest := Above(p, c)[i];
      assert rest == From(p[i], c + 1);
      FromAll(rest, d + 1);
    }
  }

  lemma CutoffAdvances(p: seq<seq<Packet>>, budget: nat, c: int, oldest: int)
    requires -1 <= c < oldest
    requires forall d :: -1 <= d < c ==> TotalSize(Above(p, d)) > budget
    requires TotalSize(Above(p, c)) > budget
    requires forall i, q :: 0 <= i < |p| && q in Above(p, c)[i] ==> oldest <= q.cts
    ensures forall d :: -1 <= d < oldest ==> TotalSize(Above(p, d)) > budget
  {
    forall d | -1 <= d < oldest ensures TotalSize(Above(p, d)) > budget {
      if c <= d {
        AboveGap(p, c, d, oldest);
      }
    }
  }

  /** The least cutoff is unique, so eviction is deterministic. */
  lemma LeastCutoffUnique(p: seq<seq<Packet>>, budget: nat, c: int, d: int)
    requires LeastCutoff(p, budget, c) && LeastCutoff(p, budget, d)
    ensures c == d
  {
  }

  /** A larger budget never evicts more. */
  lemma LeastCutoffMonotone(p: seq<seq<Packet>>, budget: nat, budget': nat, c: int, c': int)
    requires budget <= budget' && LeastCutoff(p, budget, c) && LeastCutoff(p, budget', c')
    ensures c' <= c
  {
  }

  // ---- the capture session

  /** `tbNum`, `tbDen` and `header` are the parts of the stream's configuration that its packets can complete. */
  datatype StreamState = StreamState(name: string, tbNum: int, tbDen: int, header: bool, packets: seq<Packet>,
                                     retainedBytes: nat, maxSourceCts: nat, hasSourceCts: bool)

  ghost predicate StreamOk(s: StreamState) {
    && Sorted(s.packets)
    && s.retainedBytes == SizeOf(s.packets)
    && (s.packets != [] ==> s.hasSourceCts && MaxCts(s.packets) <= s.maxSourceCts && s.tbNum > 0 && s.tbDen > 0)
    && forall q :: q in s.packets ==> q.size > 0 && q.tbNum > 0 && q.tbDen > 0
  }

  ghost function Histories(streams: seq<StreamState>): (p: seq<seq<Packet>>)
    ensures |p| == |streams| && forall i :: 0 <= i < |p| ==> p[i] == streams[i].packets
  {
    seq(|streams|, i requires 0 <= i < |streams| => streams[i].packets)
  }

  function Held(streams: seq<StreamState>): nat {
    if |streams| == 0 then 0 else Held(streams[..|streams| - 1]) + streams[|streams| - 1].retainedBytes
  }

  lemma {:induction false} HeldIsTotal(streams: seq<StreamState>)
    requires forall i :: 0 <= i < |streams| ==> StreamOk(streams[i])
    ensures Held(streams) == TotalSize(Histories(streams))
  {
    if |streams| > 0 {
      var n := |streams| - 1;
      HeldIsTotal(streams[..n]);
      assert Histories(streams)[..n] == Histories(streams[..n]);
    }
  }

  /** The smallest of the streams' greatest CTS values, once every stream has one. */
  ghost function CommonWatermark(streams: seq<StreamState>): Option<nat> {
    if |streams| == 0 || exists i :: 0 <= i < |streams| && !streams[i].hasSourceCts then None
    else Some(Slowest(streams))
  }

  ghost function Slowest(streams: seq<StreamState>): nat
    requires |streams| > 0
  {
    var n := |streams| - 1;
    if n == 0 then streams[0].maxSourceCts
    else
      var rest := Slowest(streams[..n]);
      if streams[n].maxSourceCts < rest then streams[n].maxSourceCts else rest
  }

  /** The watermark of `t` is at least that of `s`. */
  ghost predicate NotBehind(s: seq<StreamState>, t: seq<StreamState>) {
    CommonWatermark(s).Some? ==> CommonWatermark(t).Some? && CommonWatermark(s).value <= CommonWatermark(t).value
  }

  lemma {:induction false} SlowestGrows(s: seq<StreamState>, t: seq<StreamState>)
    requires |s| == |t| > 0 && forall i :: 0 <= i < |s| ==> s[i].maxSourceCts <= t[i].maxSourceCts
    ensures Slowest(s) <= Slowest(t)
  {
    var n := |s| - 1;
    if n > 0 {
      SlowestGrows(s[..n], t[..n]);
    }
  }

  ghost predicate Grown(s: seq<StreamState>, t: seq<StreamState>) {
    && |s| == |t|
    && forall i :: 0 <= i < |s| ==>
         t[i].name == s[i].name && s[i].maxSourceCts <= t[i].maxSourceCts && (s[i].hasSourceCts ==> t[i].hasSourceCts)
  }

  /** `t` is `s` with other packets held. */
  ghost predicate SameButHeld(s: seq<StreamState>, t: seq<StreamState>) {
    && |s| == |t|
    && forall i :: 0 <= i < |s| ==> t[i] == s[i].(packets := t[i].packets, retainedBytes := t[i].retainedBytes)
  }

  /** What eviction does to the streams. */
  ghost predicate Evicted(s: seq<StreamState>, t: seq<StreamState>, capacity: nat) {
    && SameButHeld(s, t)
    && (forall i :: 0 <= i < |t| ==> StreamOk(t[i]))
    && EvictedTo(Histories(s), Histories(t), capacity)
  }

  lemma GrownIsNotBehind(s: seq<StreamState>, t: seq<StreamState>)
    requires Grown(s, t)
    ensures NotBehind(s, t)
  {
    if CommonWatermark(s).Some? {
      SlowestGrows(s, t);
    }
  }

  // ---- erasing

  method EraseFront(s: StreamState) returns (t: StreamState, evicted: nat)
    requires StreamOk(s)
    ensures StreamOk(t) && t == s.(packets := t.packets, retainedBytes := t.retainedBytes)
    ensures t.packets == if s.packets == [] then [] else s.packets[1..]
    ensures evicted == |s.packets| - |t.packets|
  {
    hide SizeOf;
    if |s.packets| == 0 {
      return s, 0;
    }
    SizeOfFirst(s.packets);
    t := s.(retainedBytes := s.retainedBytes - s.packets[0].size, packets := s.packets[1..]);
    evicted := 1;
  }

  lemma SortedOf(s: StreamState)
    requires StreamOk(s)
    ensures Sorted(s.packets)
  {
  }

  method EraseThrough(s: StreamState, cts: nat) returns (t: StreamState, evicted: nat)
    requires StreamOk(s)
    ensures StreamOk(t) && t == s.(packets := t.packets, retainedBytes := t.retainedBytes)
    ensures t.packets == From(s.packets, cts + 1)
    ensures evicted == |s.packets| - |t.packets|
  {
    hide SizeOf, From, UpTo, StreamOk;
    SortedOf(s);
    t, evicted := s, 0;
    while |t.packets| > 0 && t.packets[0].cts <= cts
      invariant StreamOk(t) && t == s.(packets := t.packets, retainedBytes := t.retainedBytes)
      invariant evicted <= |s.packets| && t.packets == s.packets[evicted..]
      invariant evicted > 0 ==> s.packets[evicted - 1].cts <= cts
      decreases |t.packets|
    {
      var n: nat;
      t, n := EraseFront(t);
      evicted := evicted + n;
    }
    CutAt(s.packets, cts + 1, evicted);
  }

  method TrimToKeyframe(s: StreamState) returns (t: StreamState, evicted: nat)
    requires StreamOk(s)
    ensures StreamOk(t) && t == s.(packets := t.packets, retainedBytes := t.retainedBytes)
    ensures FromFirstKeyframe(t.packets, s.packets)
    ensures t.packets != [] ==> t.packets[0].keyframe
    ensures evicted == |s.packets| - |t.packets|
    ensures t.retainedBytes <= s.retainedBytes
  {
    hide SizeOf, FromFirstKeyframe, StreamOk;
    t, evicted := s, 0;
    while |t.packets| > 0 && !t.packets[0].keyframe
      invariant StreamOk(t) && t == s.(packets := t.packets, retainedBytes := t.retainedBytes)
      invariant evicted <= |s.packets| && t.packets == s.packets[evicted..]
      invariant forall i :: 0 <= i < evicted ==> !s.packets[i].keyframe
      decreases |t.packets|
    {
      var n: nat;
      t, n := EraseFront(t);
      evicted := evicted + n;
    }
    KeyframeAtCut(s.packets, evicted);
    LighterSuffix(s, t, evicted);
  }

  lemma KeyframeAtCut(s: seq<Packet>, k: nat)
    requires k <= |s| && (forall i :: 0 <= i < k ==> !s[i].keyframe) && (k < |s| ==> s[k].keyframe)
    ensures FromFirstKeyframe(s[k..], s)
  {
  }

  lemma LighterSuffix(s: StreamState, t: StreamState, k: nat)
    requires StreamOk(s) && StreamOk(t) && k <= |s.packets| && t.packets == s.packets[k..]
    ensures t.retainedBytes <= s.retainedBytes
  {
    hide SizeOf;
    SizeSplit(s.packets, k);
  }

  method OldestCts(streams: seq<StreamState>) returns (oldest: Option<nat>)
    requires forall i :: 0 <= i < |streams| ==> StreamOk(streams[i])
    ensures oldest.None? <==> forall i :: 0 <= i < |streams| ==> streams[i].packets == []
    ensures oldest.Some? ==>
              && (forall i, q :: 0 <= i < |streams| && q in streams[i].packets ==> oldest.value <= q.cts)
              && (exists i :: 0 <= i < |streams| && streams[i].packets != [] &&
                    streams[i].packets[0].cts == oldest.value)
  {
    oldest := None;
    for i := 0 to |streams|
      invariant oldest.None? <==> forall j :: 0 <= j < i ==> streams[j].packets == []
      invariant oldest.Some? ==>
                  && (forall j, q :: 0 <= j < i && q in streams[j].packets ==> oldest.value <= q.cts)
                  && (exists j :: 0 <= j < i && streams[j].packets != [] && streams[j].packets[0].cts == oldest.value)
    {
      if |streams[i].packets| > 0 {
        var first := streams[i].packets[0].cts;
        assert forall q :: q in streams[i].packets ==> first <= q.cts;
        oldest := if oldest.None? || first < oldest.value then Some(first) else oldest;
      }
    }
  }

  lemma {:induction false} NothingHeld(streams: seq<StreamState>)
    requires forall i :: 0 <= i < |streams| ==> StreamOk(streams[i]) && streams[i].packets == []
    ensures Held(streams) == 0
  {
    if |streams| > 0 {
      NothingHeld(streams[..|streams| - 1]);
    }
  }

  lemma {:induction false} CountUpdate(p: seq<seq<Packet>>, i: nat, s: seq<Packet>)
    requires i < |p|
    ensures Count(p[i := s]) + |p[i]| == Count(p) + |s|
  {
    var n := |p| - 1;
    if i < n {
      CountUpdate(p[..n], i, s);
      assert p[i := s][..n] == p[..n][i := s];
    } else {
      assert p[i := s][..n] == p[..n];
    }
  }

  lemma {:induction false} HeldUpdate(s: seq<StreamState>, i: nat, t: StreamState)
    requires i < |s|
    ensures Held(s[i := t]) + s[i].retainedBytes == Held(s) + t.retainedBytes
  {
    var n := |s| - 1;
    if i < n {
      HeldUpdate(s[..n], i, t);
      assert s[i := t][..n] == s[..n][i := t];
    } else {
      assert s[i := t][..n] == s[..n];
    }
  }

  /** Erases the common temporal prefix up to `cts` from every stream. */
  method ErasePrefix(streams: seq<StreamState>, cts: nat) returns (rest: seq<StreamState>, evicted: nat)
    requires forall i :: 0 <= i < |streams| ==> StreamOk(streams[i])
    ensures SameButHeld(streams, rest) && forall i :: 0 <= i < |rest| ==> StreamOk(rest[i])
    ensures Histories(rest) == Above(Histories(streams), cts)
    ensures evicted + Count(Histories(rest)) == Count(Histories(streams))
  {
    hide From, StreamOk, Count;
    rest, evicted := streams, 0;
    for i := 0 to |streams|
      invariant |rest| == |streams| && forall j :: 0 <= j < |rest| ==> StreamOk(rest[j])
      invariant forall j :: 0 <= j < i ==> rest[j].packets == From(streams[j].packets, cts + 1)
      invariant forall j :: 0 <= j < i ==>
                  rest[j] == streams[j].(packets := rest[j].packets, retainedBytes := rest[j].retainedBytes)
      invariant forall j :: i <= j < |streams| ==> rest[j] == streams[j]
      invariant evicted + Count(Histories(rest)) == Count(Histories(streams))
    {
      var t, n := EraseThrough(rest[i], cts);
      CountUpdate(Histories(rest), i, t.packets);
      assert Histories(rest[i := t]) == Histories(rest)[i := t.packets];
      rest, evicted := rest[i := t], evicted + n;
    }
  }

  /** Drops the partial GOPs that eviction exposed. */
  method TrimGops(streams: seq<StreamState>) returns (rest: seq<StreamState>, evicted: nat)
    requires forall i :: 0 <= i < |streams| ==> StreamOk(streams[i])
    ensures SameButHeld(streams, rest) && forall i :: 0 <= i < |rest| ==> StreamOk(rest[i])
    ensures forall i :: 0 <= i < |rest| ==> FromFirstKeyframe(rest[i].packets, streams[i].packets)
    ensures forall i :: 0 <= i < |rest| && rest[i].packets != [] ==> rest[i].packets[0].keyframe
    ensures evicted + Count(Histories(rest)) == Count(Histories(streams))
    ensures Held(rest) <= Held(streams)
  {
    hide StreamOk, Count, FromFirstKeyframe, Held;
    rest, evicted := streams, 0;
    for i := 0 to |streams|
      invariant |rest| == |streams| && forall j :: 0 <= j < |rest| ==> StreamOk(rest[j])
      invariant forall j :: 0 <= j < i ==> FromFirstKeyframe(rest[j].packets, streams[j].packets)
      invariant forall j :: 0 <= j < i && rest[j].packets != [] ==> rest[j].packets[0].keyframe
      invariant forall j :: 0 <= j < i ==>
                  rest[j] == streams[j].(packets := rest[j].packets, retainedBytes := rest[j].retainedBytes)
      invariant forall j :: i <= j < |streams| ==> rest[j] == streams[j]
      invariant evicted + Count(Histories(rest)) == Count(Histories(streams))
      invariant Held(rest) <= Held(streams)
    {
      var t, n := TrimToKeyframe(rest[i]);
      CountUpdate(Histories(rest), i, t.packets);
      HeldUpdate(rest, i, t);
      assert Histories(rest[i := t]) == Histories(rest)[i := t.packets];
      rest, evicted := rest[i := t], evicted + n;
    }
  }

  /** Eviction: the least common cutoff that fits the budget, then whole GOPs; every packet lost is counted. */
  method EvictToCapacity(streams: seq<StreamState>, capacity: nat) returns (rest: seq<StreamState>, evicted: nat)
    requires forall i :: 0 <= i < |streams| ==> StreamOk(streams[i])
    ensures Evicted(streams, rest, capacity)
    ensures Held(rest) <= capacity
    ensures forall i :: 0 <= i < |rest| && rest[i].packets != [] ==> rest[i].packets[0].keyframe
    ensures evicted + Count(Histories(rest)) == Count(Histories(streams))
  {
    hide From, StreamOk, Count, FromFirstKeyframe, TotalSize;
    rest, evicted := streams, 0;
    ghost var p, cutoff: int := Histories(streams), -1;
    AboveNothing(p);
    HeldIsTotal(rest);
    while Held(rest) > capacity
      invariant SameButHeld(streams, rest) && forall i :: 0 <= i < |rest| ==> StreamOk(rest[i])
      invariant -1 <= cutoff && Histories(rest) == Above(p, cutoff) && Held(rest) == TotalSize(Above(p, cutoff))
      invariant forall c :: -1 <= c < cutoff ==> TotalSize(Above(p, c)) > capacity
      invariant evicted + Count(Histories(rest)) == Count(p)
      decreases Count(Histories(rest))
    {
      var oldest := OldestCts(rest);
      if oldest.None? {
        NothingHeld(rest);
        break;
      }
      OldestIsAbove(p, cutoff, rest, oldest.value);
      CutoffAdvances(p, capacity, cutoff, oldest.value);
      AboveTwice(p, cutoff, oldest.value);
      var n: nat;
      ghost var before := rest;
      rest, n := ErasePrefix(rest, oldest.value);
      SomethingErased(before, rest, oldest.value, n);
      evicted, cutoff := evicted + n, oldest.value;
      HeldIsTotal(rest);
    }
    assert LeastCutoff(p, capacity, cutoff);
    var m: nat;
    ghost var uncut := rest;
    rest, m := TrimGops(rest);
    evicted := evicted + m;
    assert forall i :: 0 <= i < |p| ==> uncut[i].packets == From(p[i], cutoff + 1);
  }

  lemma OldestIsAbove(p: seq<seq<Packet>>, cutoff: int, rest: seq<StreamState>, oldest: nat)
    requires Histories(rest) == Above(p, cutoff)
    requires forall i, q :: 0 <= i < |rest| && q in rest[i].packets ==> oldest <= q.cts
    requires exists i :: 0 <= i < |rest| && rest[i].packets != [] && rest[i].packets[0].cts == oldest
    ensures cutoff < oldest
    ensures forall i, q :: 0 <= i < |p| && q in Above(p, cutoff)[i] ==> oldest <= q.cts
  {
    hide From;
    var i :| 0 <= i < |rest| && rest[i].packets != [] && rest[i].packets[0].cts == oldest;
    FromMembers(p[i], cutoff + 1);
    assert Above(p, cutoff)[i] == rest[i].packets;
    assert rest[i].packets[0] in rest[i].packets;
    forall j, q | 0 <= j < |p| && q in Above(p, cutoff)[j] ensures oldest <= q.cts {
      assert Histories(rest)[j] == rest[j].packets;
    }
  }

  lemma SomethingErased(before: seq<StreamState>, after: seq<StreamState>, oldest: nat, n: nat)
    requires |before| == |after| && Histories(after) == Above(Histories(before), oldest)
    requires exists i :: 0 <= i < |before| && before[i].packets != [] && before[i].packets[0].cts == oldest
    requires n + Count(Histories(after)) == Count(Histories(before))
    ensures Count(Histories(after)) < Count(Histories(before))
  {
    hide From;
    var i :| 0 <= i < |before| && before[i].packets != [] && before[i].packets[0].cts == oldest;
    var p, q := before[i].packets, after[i].packets;
    assert q == From(p, oldest + 1) by { assert Histories(after)[i] == q && Histories(before)[i] == p; }
    if n == 0 {
      FromMembers(p, oldest + 1);
      ShorterSomewhere(Histories(before), Histories(after), i, oldest);
    }
  }

  lemma {:induction false} FromShorter(s: seq<Packet>, c: int)
    ensures |From(s, c)| <= |s|
    ensures (exists q :: q in s && q.cts < c) ==> |From(s, c)| < |s|
  {
    if |s| > 0 {
      Snoc(s);
      FromShorter(s[..|s| - 1], c);
    }
  }

  lemma {:induction false} ShorterSomewhere(p: seq<seq<Packet>>, r: seq<seq<Packet>>, i: nat, oldest: nat)
    requires |p| == |r| && i < |p| && r == Above(p, oldest)
    requires p[i] != [] && p[i][0].cts == oldest
    ensures Count(r) < Count(p)
  {
    hide From;
    var n := |p| - 1;
    FromShorter(p[n], oldest + 1);
    assert r[..n] == Above(p[..n], oldest);
    if i < n {
      ShorterSomewhere(p[..n], r[..n], i, oldest);
    } else {
      assert p[n][0] in p[n];
      NoLonger(p[..n], r[..n], oldest);
    }
  }

  lemma {:induction false} NoLonger(p: seq<seq<Packet>>, r: seq<seq<Packet>>, oldest: nat)
    requires |p| == |r| && r == Above(p, oldest)
    ensures Count(r) <= Count(p)
  {
    hide From;
    if |p| > 0 {
      var n := |p| - 1;
      FromShorter(p[n], oldest + 1);
      assert r[..n] == Above(p[..n], oldest);
      NoLonger(p[..n], r[..n], oldest);
    }
  }

  // ---- what eviction leaves is determined by what it was given

  lemma FirstKeyframeUnique(r: seq<Packet>, r': seq<Packet>, s: seq<Packet>)
    requires FromFirstKeyframe(r, s) && FromFirstKeyframe(r', s)
    ensures r == r'
  {
    var k :| 0 <= k <= |s| && r == s[k..] && (forall i :: 0 <= i < k ==> !s[i].keyframe) && (k < |s| ==> s[k].keyframe);
    var k' :| 0 <= k' <= |s| && r' == s[k'..]
      && (forall i :: 0 <= i < k' ==> !s[i].keyframe) && (k' < |s| ==> s[k'].keyframe);
    assert k == k';
  }

  lemma EvictionDetermined(s: seq<StreamState>, t: seq<StreamState>, t': seq<StreamState>, capacity: nat)
    requires Evicted(s, t, capacity) && Evicted(s, t', capacity)
    ensures t == t'
  {
    hide From, TotalSize, FromFirstKeyframe, SizeOf, Sorted;
    var p := Histories(s);
    var c :| LeastCutoff(p, capacity, c) &&
             forall i :: 0 <= i < |p| ==> FromFirstKeyframe(Histories(t)[i], From(p[i], c + 1));
    var c' :| LeastCutoff(p, capacity, c') &&
              forall i :: 0 <= i < |p| ==> FromFirstKeyframe(Histories(t')[i], From(p[i], c' + 1));
    LeastCutoffUnique(p, capacity, c, c');
    forall i | 0 <= i < |s| ensures t[i] == t'[i] {
      FirstKeyframeUnique(Histories(t)[i], Histories(t')[i], From(p[i], c + 1));
      assert StreamOk(t[i]) && StreamOk(t'[i]);
    }
  }

  lemma KeyframeSuffix(r: seq<Packet>, s: seq<Packet>)
    requires FromFirstKeyframe(r, s)
    ensures SizeOf(r) <= SizeOf(s) && (r != [] ==> r[0].keyframe)
  {
    hide SizeOf;
    var k :| 0 <= k <= |s| && r == s[k..] && (forall i :: 0 <= i < k ==> !s[i].keyframe) && (k < |s| ==> s[k].keyframe);
    SizeSplit(s, k);
  }

  lemma {:induction false} TotalGrows(p: seq<seq<Packet>>, r: seq<seq<Packet>>)
    requires |p| == |r| && forall i :: 0 <= i < |p| ==> SizeOf(p[i]) <= SizeOf(r[i])
    ensures TotalSize(p) <= TotalSize(r)
  {
    hide SizeOf;
    if |p| > 0 {
      TotalGrows(p[..|p| - 1], r[..|r| - 1]);
    }
  }

  /** After eviction the shared budget holds and every history starts at a keyframe. */
  lemma EvictedFits(s: seq<StreamState>, t: seq<StreamState>, capacity: nat)
    requires Evicted(s, t, capacity)
    ensures Held(t) <= capacity
    ensures forall i :: 0 <= i < |t| && t[i].packets != [] ==> t[i].packets[0].keyframe
  {
    hide From, TotalSize, FromFirstKeyframe, SizeOf, Sorted;
    var p := Histories(s);
    var c :| LeastCutoff(p, capacity, c) &&
             forall i :: 0 <= i < |p| ==> FromFirstKeyframe(Histories(t)[i], From(p[i], c + 1));
    forall i | 0 <= i < |p|
      ensures SizeOf(Histories(t)[i]) <= SizeOf(Above(p, c)[i])
      ensures t[i].packets != [] ==> t[i].packets[0].keyframe
    {
      KeyframeSuffix(Histories(t)[i], From(p[i], c + 1));
    }
    TotalGrows(Histories(t), Above(p, c));
    HeldIsTotal(t);
  }
}
