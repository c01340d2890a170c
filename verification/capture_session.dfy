/** The capture session: registration, ingest into the replay ring, retention and the snapshot entry points.
    Methods are atomic regions under the session lock; fan-out to the consumers happens outside it. */
module CaptureSession {
  import opened Packets
  import opened CaptureRing
  import opened ReplaySnapshot

  /** `admitted` counts the packets retained at ingest, `cleared` those dropped when retention was switched off,
      and `accepted` lists, per stream, what was retained since then. */
  datatype Ring = Ring(running: bool, retention: bool, capacity: nat, streams: seq<StreamState>, retained: nat,
                       evicted: nat, duplicates: nat, rejected: nat, admitted: nat, cleared: nat,
                       accepted: seq<seq<Packet>>)

  datatype Command =
    | Register(id: nat, name: string, width: nat, height: nat, tbNum: int, tbDen: int)
    | Start
    | Stop
    | Ingest(id: nat, packet: Packet, header: bool)
    | SetCapacity(bytes: nat)
    | SetRetention(enabled: bool)

  // ---- one command

  ghost predicate Registrable(v: Ring, c: Command)
    requires c.Register?
  {
    && !v.running && c.name != "" && c.width > 0 && c.height > 0 && c.id == |v.streams|
    && forall s :: s in v.streams ==> s.name != c.name
  }

  ghost predicate Malformed(v: Ring, c: Command)
    requires c.Ingest?
  {
    !v.running || c.id >= |v.streams| || c.packet.size == 0 || c.packet.tbNum <= 0 || c.packet.tbDen <= 0
  }

  ghost predicate Repeated(v: Ring, c: Command)
    requires c.Ingest? && c.id < |v.streams|
  {
    HasCts(v.streams[c.id].packets, c.packet.cts)
  }

  ghost predicate Accepts(v: Ring, c: Command) {
    match c
    case Register(_, _, _, _, _, _) => Registrable(v, c)
    case Start => !v.running && |v.streams| > 0
    case Ingest(_, _, _) => !Malformed(v, c) && !Repeated(v, c)
    case _ => true
  }

  /** A packet completes the configuration of its stream. */
  function Completed(s: StreamState, p: Packet, header: bool): StreamState {
    if s.tbNum <= 0 || s.tbDen <= 0 then s.(tbNum := p.tbNum, tbDen := p.tbDen, header := s.header || header)
    else s.(header := s.header || header)
  }

  function Retained(s: StreamState, p: Packet): StreamState {
    s.(packets := Insert(s.packets, p), retainedBytes := s.retainedBytes + p.size,
       maxSourceCts := if p.cts > s.maxSourceCts then p.cts else s.maxSourceCts, hasSourceCts := true)
  }

  function Emptied(s: StreamState): StreamState {
    s.(packets := [], retainedBytes := 0, maxSourceCts := 0, hasSourceCts := false)
  }

  function AllEmptied(streams: seq<StreamState>): (t: seq<StreamState>)
    ensures |t| == |streams| && forall i :: 0 <= i < |t| ==> t[i] == Emptied(streams[i])
  {
    seq(|streams|, i requires 0 <= i < |streams| => Emptied(streams[i]))
  }

  ghost function NothingAccepted(n: nat): (a: seq<seq<Packet>>)
    ensures |a| == n && forall i :: 0 <= i < n ==> a[i] == []
  {
    seq(n, i => [])
  }

  /** `v'` is `v` with `s` evicted to the capacity; every packet lost is counted. */
  ghost predicate AfterEviction(v: Ring, s: seq<StreamState>, v': Ring) {
    && v' == v.(streams := v'.streams, retained := Held(v'.streams), evicted := v'.evicted)
    && Evicted(s, v'.streams, v.capacity)
    && v'.evicted + Count(Histories(v'.streams)) == v.evicted + Count(Histories(s))
  }

  ghost predicate Next(v: Ring, c: Command, v': Ring)
    requires |v.accepted| == |v.streams|
  {
    match c
    case Register(_, name, _, _, num, den) =>
      v' == if Registrable(v, c) then
              v.(streams := v.streams + [StreamState(name, num, den, false, [], 0, 0, false)],
                 accepted := v.accepted + [[]])
            else v
    case Start => v' == v.(running := v.running || |v.streams| > 0)
    case Stop => v' == v.(running := false)
    case Ingest(id, p, header) =>
      if Malformed(v, c) then v' == v.(rejected := v.rejected + 1)
      else if Repeated(v, c) then v' == v.(duplicates := v.duplicates + 1)
      else
        var stream := Completed(v.streams[id], p, header);
        if !v.retention then v' == v.(streams := v.streams[id := stream])
        else AfterEviction(v.(admitted := v.admitted + 1, accepted := v.accepted[id := v.accepted[id] + [p]]),
                           v.streams[id := Retained(stream, p)], v')
    case SetCapacity(bytes) =>
      var w := v.(capacity := bytes);
      if !v.retention then v' == w else AfterEviction(w, v.streams, v')
    case SetRetention(enabled) =>
      if enabled then v' == v.(retention := true)
      else
        v' == v.(retention := false, retained := 0, cleared := v.cleared + Count(Histories(v.streams)),
                 streams := AllEmptied(v.streams), accepted := NothingAccepted(|v.streams|))
  }

  // ---- the invariant

  ghost predicate RingOk(v: Ring) {
    && |v.accepted| == |v.streams|
    && (forall i :: 0 <= i < |v.streams| ==> StreamOk(v.streams[i]))
    && v.retained == Held(v.streams)
    && (v.retention ==> Held(v.streams) <= v.capacity)
    && (!v.retention ==> forall i :: 0 <= i < |v.streams| ==> v.streams[i] == Emptied(v.streams[i]))
    && (forall i :: 0 <= i < |v.streams| && v.streams[i].packets != [] ==> v.streams[i].packets[0].keyframe)
    && v.admitted == Count(Histories(v.streams)) + v.evicted + v.cleared
  }

  ghost predicate Initial(v: Ring) {
    v == Ring(false, true, v.capacity, [], 0, 0, 0, 0, 0, 0, [])
  }

  lemma CompletedOk(s: StreamState, p: Packet, header: bool)
    requires StreamOk(s) && p.tbNum > 0 && p.tbDen > 0
    ensures var t := Completed(s, p, header);
            && StreamOk(t) && t.tbNum > 0 && t.tbDen > 0
            && t == s.(tbNum := t.tbNum, tbDen := t.tbDen, header := t.header)
  {
    hide SizeOf, Sorted;
  }

  lemma RetainedOk(s: StreamState, p: Packet)
    requires StreamOk(s) && !HasCts(s.packets, p.cts) && p.size > 0 && p.tbNum > 0 && p.tbDen > 0
    requires s.tbNum > 0 && s.tbDen > 0
    ensures StreamOk(Retained(s, p)) && |Retained(s, p).packets| == |s.packets| + 1
  {
    hide SizeOf, Sorted, Insert, HasCts;
    InsertSorted(s.packets, p);
    SizeOfInsert(s.packets, p);
    InsertMembers(s.packets, p);
    assert |multiset(Insert(s.packets, p))| == |multiset(s.packets)| + 1;
  }

  lemma {:induction false} NothingCounted(p: seq<seq<Packet>>)
    requires forall i :: 0 <= i < |p| ==> p[i] == []
    ensures Count(p) == 0
  {
    if |p| > 0 {
      NothingCounted(p[..|p| - 1]);
    }
  }

  lemma AfterEvictionOk(v: Ring, s: seq<StreamState>, v': Ring)
    requires |v.accepted| == |s| && v.retention && AfterEviction(v, s, v')
    requires v.admitted == Count(Histories(s)) + v.evicted + v.cleared
    ensures RingOk(v')
  {
    hide Count, StreamOk, Held, EvictedTo;
    EvictedFits(s, v'.streams, v.capacity);
  }

  /** Retaining one packet adds one to the count. */
  lemma OneMore(v: Ring, id: nat, s: StreamState)
    requires id < |v.streams| && |s.packets| == |v.streams[id].packets| + 1
    ensures Count(Histories(v.streams[id := s])) == Count(Histories(v.streams)) + 1
  {
    hide Count;
    CountUpdate(Histories(v.streams), id, s.packets);
    assert Histories(v.streams[id := s]) == Histories(v.streams)[id := s.packets];
  }

  lemma SameHeldSameTotals(s: seq<StreamState>, id: nat, t: StreamState)
    requires id < |s| && t.packets == s[id].packets && t.retainedBytes == s[id].retainedBytes
    ensures Held(s[id := t]) == Held(s) && Histories(s[id := t]) == Histories(s)
  {
    hide Held;
    HeldUpdate(s, id, t);
  }

  /** Every command keeps the invariant. */
  lemma NextKeepsRing(v: Ring, c: Command, v': Ring)
    requires RingOk(v) && Next(v, c, v')
    ensures RingOk(v')
  {
    hide Count, StreamOk, Held, AfterEviction, Evicted, Completed, Retained, Insert;
    match c
    case Register(_, _, _, _, _, _) =>
      if Registrable(v, c) { RegisterKeepsRing(v, c, v'); }
    case Ingest(id, p, header) =>
      if !Malformed(v, c) && !Repeated(v, c) {
        IngestKeepsRing(v, c, v');
      }
    case SetCapacity(bytes) =>
      if v.retention {
        AfterEvictionOk(v.(capacity := bytes), v.streams, v');
      }
    case SetRetention(enabled) =>
      if enabled {
        SwitchOnKeepsRing(v);
      } else {
        SwitchOffKeepsRing(v, v');
      }
    case Start =>
    case Stop =>
  }

  lemma TotalsSnoc(s: seq<StreamState>, t: StreamState)
    ensures Held(s + [t]) == Held(s) + t.retainedBytes
    ensures Count(Histories(s + [t])) == Count(Histories(s)) + |t.packets|
  {
    var n, w := |s|, s + [t];
    assert w[..n] == s && w[n] == t && Histories(w)[..n] == Histories(s) && Histories(w)[n] == t.packets;
  }

  lemma NewStream(v: Ring, c: Command, v': Ring, s: StreamState)
    requires |v.accepted| == |v.streams| && c.Register? && Next(v, c, v') && Registrable(v, c)
    requires s == StreamState(c.name, c.tbNum, c.tbDen, false, [], 0, 0, false)
    ensures v' == v.(streams := v.streams + [s], accepted := v.accepted + [[]])
    ensures StreamOk(s) && s == Emptied(s) && s.packets == []
  {
    hide Registrable;
  }

  lemma RegisterKeepsRing(v: Ring, c: Command, v': Ring)
    requires RingOk(v) && c.Register? && Next(v, c, v') && Registrable(v, c)
    ensures RingOk(v')
  {
    var s := StreamState(c.name, c.tbNum, c.tbDen, false, [], 0, 0, false);
    NewStream(v, c, v', s);
    TotalsSnoc(v.streams, s);
    hide StreamOk, Emptied, Registrable, Next, Held, Count, Histories;
  }

  lemma SwitchOnKeepsRing(v: Ring)
    requires RingOk(v)
    ensures RingOk(v.(retention := true))
  {
    hide Count, Sorted, SizeOf;
    if !v.retention {
      NothingHeld(v.streams);
    }
  }

  lemma SwitchOffKeepsRing(v: Ring, v': Ring)
    requires RingOk(v) && Next(v, SetRetention(false), v')
    ensures RingOk(v')
  {
    hide Count, Held;
    NothingHeld(v'.streams);
    NothingCounted(Histories(v'.streams));
  }

  lemma IngestKeepsRing(v: Ring, c: Command, v': Ring)
    requires RingOk(v) && c.Ingest? && Next(v, c, v') && !Malformed(v, c) && !Repeated(v, c)
    ensures RingOk(v')
  {
    hide Count, StreamOk, Held, AfterEviction, Insert;
    var stream := Completed(v.streams[c.id], c.packet, c.header);
    CompletedOk(v.streams[c.id], c.packet, c.header);
    if v.retention {
      RetainedOk(stream, c.packet);
      OneMore(v, c.id, Retained(stream, c.packet));
      AfterEvictionOk(v.(admitted := v.admitted + 1, accepted := v.accepted[c.id := v.accepted[c.id] + [c.packet]]),
                      v.streams[c.id := Retained(stream, c.packet)], v');
    } else {
      SameHeldSameTotals(v.streams, c.id, stream);
    }
  }

  // ---- whole runs

  ghost predicate Execution(vs: seq<Ring>, cs: seq<Command>) {
    && |vs| == |cs| + 1
    && forall i :: 0 <= i < |cs| ==> |vs[i].accepted| == |vs[i].streams| && Next(vs[i], cs[i], vs[i + 1])
  }

  /** The ring invariant holds between any two commands of any run: byte counters equal the payload sums, the
      budget holds, histories start at keyframes, and admitted packets are held, evicted or cleared. */
  lemma {:induction false} RunKeepsRing(vs: seq<Ring>, cs: seq<Command>, k: nat)
    requires Execution(vs, cs) && Initial(vs[0]) && k < |vs|
    ensures RingOk(vs[k])
  {
    hide Next;
    if k == 0 {
      assert Histories([]) == [];
    } else {
      RunKeepsRing(vs, cs, k - 1);
      assert Next(vs[k - 1], cs[k - 1], vs[k]);
      NextKeepsRing(vs[k - 1], cs[k - 1], vs[k]);
    }
  }

  /** Commands that neither add a stream nor discard the history. */
  predicate KeepsWatermark(c: Command) {
    !c.Register? && !(c.SetRetention? && !c.enabled)
  }

  lemma NextIsNotBehind(v: Ring, c: Command, v': Ring)
    requires RingOk(v) && Next(v, c, v') && KeepsWatermark(c)
    ensures Grown(v.streams, v'.streams)
  {
    hide StreamOk, Count, Held, EvictedTo, Insert;
  }

  /** While retention stays enabled and no stream is added, the common watermark never decreases. */
  lemma {:induction false} WatermarkNeverDecreases(vs: seq<Ring>, cs: seq<Command>, i: nat, j: nat)
    requires Execution(vs, cs) && Initial(vs[0]) && i <= j < |vs|
    requires forall k :: i <= k < j ==> KeepsWatermark(cs[k])
    ensures NotBehind(vs[i].streams, vs[j].streams)
  {
    hide Next, RingOk, CommonWatermark;
    if i < j {
      WatermarkNeverDecreases(vs, cs, i, j - 1);
      RunKeepsRing(vs, cs, j - 1);
      assert Next(vs[j - 1], cs[j - 1], vs[j]);
      NextIsNotBehind(vs[j - 1], cs[j - 1], vs[j]);
      GrownIsNotBehind(vs[j - 1].streams, vs[j].streams);
    }
  }

  // ---- with packets in CTS order, the ring is the recent past

  ghost predicate Suffix<T>(a: seq<T>, b: seq<T>) {
    |a| <= |b| && a == b[|b| - |a|..]
  }

  lemma SuffixTransitive<T>(a: seq<T>, b: seq<T>, c: seq<T>)
    requires Suffix(a, b) && Suffix(b, c)
    ensures Suffix(a, c)
  {
  }

  lemma {:induction false} FromIsSuffix(s: seq<Packet>, c: int)
    requires Sorted(s)
    ensures Suffix(From(s, c), s)
  {
    hide From, UpTo;
    SplitAt(s, c - 1);
  }

  lemma KeyframeCutIsSuffix(r: seq<Packet>, s: seq<Packet>)
    requires FromFirstKeyframe(r, s)
    ensures Suffix(r, s)
  {
  }

  /** Each ingested packet is newer than everything its stream has seen. */
  ghost predicate InOrder(v: Ring, c: Command) {
    c.Ingest? && c.id < |v.streams| && v.streams[c.id].hasSourceCts ==> c.packet.cts > v.streams[c.id].maxSourceCts
  }

  ghost predicate RecentPast(held: seq<Packet>, accepted: seq<Packet>, s: StreamState) {
    && Suffix(held, accepted)
    && (accepted != [] ==> s.hasSourceCts)
    && forall q :: q in accepted ==> q.cts <= s.maxSourceCts
  }

  ghost predicate Recent(v: Ring) {
    && |v.accepted| == |v.streams|
    && forall i :: 0 <= i < |v.streams| ==> RecentPast(v.streams[i].packets, v.accepted[i], v.streams[i])
  }

  lemma EvictedSuffix(s: seq<StreamState>, t: seq<StreamState>, capacity: nat, i: nat)
    requires Evicted(s, t, capacity) && i < |s| && Sorted(s[i].packets)
    ensures Suffix(t[i].packets, s[i].packets)
  {
    hide From, LeastCutoff, FromFirstKeyframe, SizeOf, Sorted, StreamOk, Suffix;
    var p := Histories(s);
    var c :| LeastCutoff(p, capacity, c) &&
             forall i :: 0 <= i < |p| ==> FromFirstKeyframe(Histories(t)[i], From(p[i], c + 1));
    KeyframeCutIsSuffix(Histories(t)[i], From(p[i], c + 1));
    FromIsSuffix(p[i], c + 1);
    SuffixTransitive(Histories(t)[i], From(p[i], c + 1), p[i]);
  }

  lemma EvictionKeepsRecent(v: Ring, s: seq<StreamState>, v': Ring)
    requires AfterEviction(v, s, v') && |v.accepted| == |s|
    requires forall i :: 0 <= i < |s| ==> Sorted(s[i].packets) && RecentPast(s[i].packets, v.accepted[i], s[i])
    ensures Recent(v')
  {
    hide Sorted, Suffix, StreamOk, EvictedTo;
    forall i | 0 <= i < |s| ensures RecentPast(v'.streams[i].packets, v'.accepted[i], v'.streams[i]) {
      EvictedSuffix(s, v'.streams, v.capacity, i);
      SuffixTransitive(v'.streams[i].packets, s[i].packets, v.accepted[i]);
    }
  }

  lemma NewestIsRecent(s: StreamState, accepted: seq<Packet>, p: Packet)
    requires StreamOk(s) && RecentPast(s.packets, accepted, s)
    requires s.hasSourceCts ==> p.cts > s.maxSourceCts
    ensures RecentPast(Retained(s, p).packets, accepted + [p], Retained(s, p))
  {
    hide Insert, SizeOf;
    assert accepted == [] ==> s.packets == [];
    if accepted != [] {
      assert forall q :: q in s.packets ==> q in accepted;
    }
    InsertAbove(s.packets, p);
  }

  lemma NextKeepsRecent(v: Ring, c: Command, v': Ring)
    requires RingOk(v) && Recent(v) && Next(v, c, v') && InOrder(v, c)
    ensures Recent(v')
  {
    hide Count, Held, AfterEviction, Insert, SizeOf, Suffix, Retained;
    SuffixOfNothing();
    match c
    case Ingest(id, p, header) =>
      if !Malformed(v, c) && !Repeated(v, c) && v.retention {
        IngestKeepsRecent(v, c, v');
      }
    case SetCapacity(bytes) =>
      if v.retention {
        EvictionKeepsRecent(v.(capacity := bytes), v.streams, v');
      }
    case _ =>
  }

  lemma SuffixOfNothing()
    ensures Suffix<Packet>([], [])
  {
  }

  lemma IngestKeepsRecent(v: Ring, c: Command, v': Ring)
    requires RingOk(v) && Recent(v) && c.Ingest? && Next(v, c, v') && InOrder(v, c)
    requires !Malformed(v, c) && !Repeated(v, c) && v.retention
    ensures Recent(v')
  {
    hide Count, Held, AfterEviction, Insert, SizeOf, Suffix, HasCts, Retained;
    var stream := Completed(v.streams[c.id], c.packet, c.header);
    CompletedOk(v.streams[c.id], c.packet, c.header);
    RetainedOk(stream, c.packet);
    NewestIsRecent(stream, v.accepted[c.id], c.packet);
    EvictionKeepsRecent(v.(admitted := v.admitted + 1, accepted := v.accepted[c.id := v.accepted[c.id] + [c.packet]]),
                        v.streams[c.id := Retained(stream, c.packet)], v');
  }

  /** If every stream is fed in CTS order, each history is a suffix of what the stream retained: no holes. */
  lemma {:induction false} HistoryHasNoHoles(vs: seq<Ring>, cs: seq<Command>, k: nat)
    requires Execution(vs, cs) && Initial(vs[0]) && k < |vs|
    requires forall i :: 0 <= i < |cs| ==> InOrder(vs[i], cs[i])
    ensures Recent(vs[k])
  {
    hide Next, RingOk, InOrder;
    if k > 0 {
      HistoryHasNoHoles(vs, cs, k - 1);
      RunKeepsRing(vs, cs, k - 1);
      assert Next(vs[k - 1], cs[k - 1], vs[k]);
      NextKeepsRecent(vs[k - 1], cs[k - 1], vs[k]);
    }
  }

  // ---- snapshots

  datatype SnapshotConfig = SnapshotConfig(tbNum: int, tbDen: int, header: bool)

  /** The ids name distinct streams with history. */
  ghost predicate Covered(streams: seq<StreamState>, ids: seq<nat>) {
    && (forall i :: 0 <= i < |ids| ==> ids[i] < |streams| && streams[ids[i]].packets != [])
    && (forall i, j :: 0 <= i < j < |ids| ==> ids[i] != ids[j])
  }

  function Selection(streams: seq<StreamState>, ids: seq<nat>): (sel: seq<seq<Packet>>)
    requires forall i :: 0 <= i < |ids| ==> ids[i] < |streams|
    ensures |sel| == |ids| && forall i :: 0 <= i < |ids| ==> sel[i] == streams[ids[i]].packets
  {
    seq(|ids|, i requires 0 <= i < |ids| => streams[ids[i]].packets)
  }

  function AllIds(n: nat): (ids: seq<nat>)
    ensures |ids| == n && forall i :: 0 <= i < n ==> ids[i] == i
  {
    seq(n, i requires 0 <= i < n => i)
  }

  function ConfigsOf(streams: seq<StreamState>, ids: seq<nat>): (configs: seq<SnapshotConfig>)
    requires forall i :: 0 <= i < |ids| ==> ids[i] < |streams|
    ensures |configs| == |ids|
    ensures forall i :: 0 <= i < |ids| ==>
              configs[i] == SnapshotConfig(streams[ids[i]].tbNum, streams[ids[i]].tbDen, streams[ids[i]].header)
  {
    seq(|ids|, i requires 0 <= i < |ids| =>
      SnapshotConfig(streams[ids[i]].tbNum, streams[ids[i]].tbDen, streams[ids[i]].header))
  }

  lemma SelectionIsSelectable(streams: seq<StreamState>, ids: seq<nat>)
    requires Covered(streams, ids) && ids != [] && forall i :: 0 <= i < |streams| ==> StreamOk(streams[i])
    ensures Selectable(Selection(streams, ids))
  {
    hide SizeOf;
  }

  // ---- the session as the program runs it

  class SynchronizedCaptureSession {
    var running: bool
    var replayRetentionEnabled: bool
    var ringCapacityBytes: nat
    var streams: seq<StreamState>
    var retainedBytes: nat
    var evictedPacketCount: nat
    var duplicatePacketCount: nat
    var rejectedPacketCount: nat
    ghost var admitted: nat
    ghost var cleared: nat
    ghost var accepted: seq<seq<Packet>>

    ghost function View(): Ring
      reads this
    {
      Ring(running, replayRetentionEnabled, ringCapacityBytes, streams, retainedBytes, evictedPacketCount,
           duplicatePacketCount, rejectedPacketCount, admitted, cleared, accepted)
    }

    ghost predicate Valid()
      reads this
    {
      RingOk(View())
    }

    constructor (ringCapacityBytes: nat)
      ensures Valid() && Initial(View()) && this.ringCapacityBytes == ringCapacityBytes
    {
      running, replayRetentionEnabled, this.ringCapacityBytes, streams := false, true, ringCapacityBytes, [];
      retainedBytes, evictedPacketCount, duplicatePacketCount, rejectedPacketCount := 0, 0, 0, 0;
      admitted, cleared, accepted := 0, 0, [];
      new;
      assert Histories([]) == [];
    }

    method RegisterStream(id: nat, name: string, width: nat, height: nat, tbNum: int, tbDen: int) returns (ok: bool)
      requires Valid()
      modifies this
      ensures Valid()
      ensures Next(old(View()), Register(id, name, width, height, tbNum, tbDen), View())
      ensures ok <==> Accepts(old(View()), Register(id, name, width, height, tbNum, tbDen))
    {
      hide Count, StreamOk, Held;
      if running || name == "" || width == 0 || height == 0 {
        return false;
      }
      for i := 0 to |streams|
        invariant forall s :: s in streams[..i] ==> s.name != name
      {
        if streams[i].name == name {
          return false;
        }
      }
      assert streams[..|streams|] == streams;
      if id != |streams| {
        return false;
      }
      ghost var v, c := View(), Register(id, name, width, height, tbNum, tbDen);
      streams := streams + [StreamState(name, tbNum, tbDen, false, [], 0, 0, false)];
      accepted := accepted + [[]];
      NextKeepsRing(v, c, View());
      return true;
    }

    method Start() returns (ok: bool)
      requires Valid()
      modifies `running
      ensures Valid() && Next(old(View()), Command.Start, View())
      ensures ok <==> Accepts(old(View()), Command.Start)
    {
      if running || |streams| < 1 {
        return false;
      }
      running := true;
      return true;
    }

    method Stop()
      requires Valid()
      modifies `running
      ensures Valid() && Next(old(View()), Command.Stop, View())
    {
      running := false;
    }

    method Ingest(id: nat, packet: Packet, header: bool) returns (ok: bool)
      requires Valid()
      modifies this
      ensures Valid() && Next(old(View()), Command.Ingest(id, packet, header), View())
      ensures ok <==> Accepts(old(View()), Command.Ingest(id, packet, header))
    {
      hide Count, StreamOk, Held, Insert, Sorted, AfterEviction, Completed, Retained;
      ghost var v, c := View(), Command.Ingest(id, packet, header);
      if !running || id >= |streams| || packet.size == 0 || packet.tbNum <= 0 || packet.tbDen <= 0 {
        rejectedPacketCount := rejectedPacketCount + 1;
        return false;
      }
      SortedOf(streams[id]);
      var found := FindIn(streams[id].packets, packet.cts);
      if found.Some? {
        duplicatePacketCount := duplicatePacketCount + 1;
        return false;
      }
      CompletedOk(streams[id], packet, header);
      RetainedOk(Completed(streams[id], packet, header), packet);
      var stream := Completed(streams[id], packet, header);
      if replayRetentionEnabled {
        Admit(id, stream, packet);
      } else {
        streams := streams[id := stream];
      }
      NextKeepsRing(v, c, View());
      return true;
    }

    /** Inserts the packet into the history of its stream and evicts. */
    method Admit(id: nat, stream: StreamState, packet: Packet)
      requires id < |streams| == |accepted| && forall i :: 0 <= i < |streams| ==> StreamOk(streams[i])
      requires StreamOk(Retained(stream, packet))
      modifies this
      ensures var v := old(View());
              AfterEviction(v.(admitted := v.admitted + 1, accepted := v.accepted[id := v.accepted[id] + [packet]]),
                            v.streams[id := Retained(stream, packet)], View())
    {
      hide Count, StreamOk, Held, Evicted, Retained;
      streams := streams[id := Retained(stream, packet)];
      admitted, accepted := admitted + 1, accepted[id := accepted[id] + [packet]];
      Evict();
    }

    method Evict()
      requires forall i :: 0 <= i < |streams| ==> StreamOk(streams[i])
      modifies `streams, `evictedPacketCount, `retainedBytes
      ensures AfterEviction(old(View()), old(streams), View())
    {
      hide Count, StreamOk, Held, EvictedTo;
      var rest, n := EvictToCapacity(streams, ringCapacityBytes);
      streams, evictedPacketCount := rest, evictedPacketCount + n;
      retainedBytes := Held(streams);
    }

    method SetRingCapacityBytes(capacityBytes: nat)
      requires Valid()
      modifies this
      ensures Valid() && Next(old(View()), SetCapacity(capacityBytes), View())
    {
      hide Count, StreamOk, Held, AfterEviction;
      ghost var v, c := View(), SetCapacity(capacityBytes);
      ringCapacityBytes := capacityBytes;
      if replayRetentionEnabled {
        Evict();
      }
      NextKeepsRing(v, c, View());
    }

    method SetReplayRetentionEnabled(enabled: bool)
      requires Valid()
      modifies this
      ensures Valid() && Next(old(View()), SetRetention(enabled), View())
    {
      hide Count, StreamOk, Held;
      ghost var v, c := View(), SetRetention(enabled);
      replayRetentionEnabled := enabled;
      if !enabled {
        cleared := cleared + Count(Histories(streams));
        for i := 0 to |streams|
          invariant |streams| == |v.streams| && cleared == v.cleared + Count(Histories(v.streams))
          invariant forall j :: 0 <= j < |streams| ==>
                      streams[j] == if j < i then Emptied(v.streams[j]) else v.streams[j]
          invariant View() == v.(retention := false, streams := streams, cleared := cleared)
        {
          streams := streams[i := Emptied(streams[i])];
        }
        retainedBytes, accepted := 0, NothingAccepted(|streams|);
        assert streams == AllEmptied(v.streams);
      }
      NextKeepsRing(v, c, View());
    }

    method CommonWatermarkCts() returns (watermark: Option<nat>)
      requires Valid()
      ensures watermark == CommonWatermark(streams)
    {
      hide RingOk;
      if |streams| == 0 {
        return None;
      }
      var least := streams[0].maxSourceCts;
      for i := 0 to |streams|
        invariant forall j :: 0 <= j < i ==> streams[j].hasSourceCts
        invariant least == Slowest(if i == 0 then streams[..1] else streams[..i])
      {
        if !streams[i].hasSourceCts {
          return None;
        }
        assert i > 0 ==> streams[..i + 1][..i] == streams[..i];
        least := if streams[i].maxSourceCts < least then streams[i].maxSourceCts else least;
      }
      assert streams[..|streams|] == streams;
      return Some(least);
    }

    method IdsAreCovered(ids: seq<nat>) returns (covered: bool)
      requires Valid()
      ensures covered <==> Covered(streams, ids)
    {
      for i := 0 to |ids|
        invariant Covered(streams, ids[..i])
      {
        if ids[i] >= |streams| || ids[i] in ids[..i] || |streams[ids[i]].packets| == 0 {
          return false;
        }
      }
      assert ids[..|ids|] == ids;
      return true;
    }

    /** The save's view of the ring, taken under the lock. */
    method SnapshotCommonRangeDetailed(ids: seq<nat>, duration: nat)
      returns (attempt: Attempt, configs: seq<SnapshotConfig>)
      requires Valid()
      ensures !replayRetentionEnabled ==> attempt == Rejected(RetentionDisabled)
      ensures replayRetentionEnabled && ids == [] ==> attempt == Rejected(NoReplayStreams)
      ensures replayRetentionEnabled && ids != [] && duration == 0 ==> attempt == Rejected(InvalidDuration)
      ensures replayRetentionEnabled && ids != [] && duration > 0 && !Covered(streams, ids) ==>
                attempt == Rejected(InsufficientHistory)
      ensures replayRetentionEnabled && ids != [] && duration > 0 && Covered(streams, ids) ==>
                Selectable(Selection(streams, ids)) && Correct(Selection(streams, ids), duration, attempt)
      ensures attempt.Taken? ==> Covered(streams, ids) && configs == ConfigsOf(streams, ids)
    {
      hide Correct, StreamOk, Selectable, Count, Held;
      configs := [];
      if !replayRetentionEnabled {
        return Rejected(RetentionDisabled), [];
      }
      if |ids| == 0 {
        return Rejected(NoReplayStreams), [];
      }
      if duration == 0 {
        return Rejected(InvalidDuration), [];
      }
      var covered := IdsAreCovered(ids);
      if !covered {
        return Rejected(InsufficientHistory), [];
      }
      SelectionIsSelectable(streams, ids);
      attempt := SelectRange(Selection(streams, ids), duration);
      configs := ConfigsOf(streams, ids);
    }

    /** Over all registered streams. */
    method SnapshotCommonRange(duration: nat) returns (attempt: Attempt, configs: seq<SnapshotConfig>)
      requires Valid()
      ensures !replayRetentionEnabled ==> attempt == Rejected(RetentionDisabled)
      ensures replayRetentionEnabled && AllIds(|streams|) == [] ==> attempt == Rejected(NoReplayStreams)
      ensures replayRetentionEnabled && AllIds(|streams|) != [] && duration == 0 ==>
                attempt == Rejected(InvalidDuration)
      ensures var ids := AllIds(|streams|);
              replayRetentionEnabled && ids != [] && duration > 0 && !Covered(streams, ids) ==>
                attempt == Rejected(InsufficientHistory)
      ensures var ids := AllIds(|streams|);
              && (attempt.Taken? ==>
                    replayRetentionEnabled && ids != [] && duration > 0 && Covered(streams, ids)
                    && configs == ConfigsOf(streams, ids))
              && (replayRetentionEnabled && ids != [] && duration > 0 && Covered(streams, ids) ==>
                    Selectable(Selection(streams, ids)) && Correct(Selection(streams, ids), duration, attempt))
    {
      hide Correct, StreamOk, Selectable, Count, Held;
      attempt, configs := SnapshotCommonRangeDetailed(AllIds(|streams|), duration);
    }
  }
}
