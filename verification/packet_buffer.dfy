/** The byte-bounded, CTS-ordered packet store under the recording session. */
module PacketBuffer {
  import opened Packets

  datatype PushResult = Retained | MissingTiming | DuplicateSourceCts | Capacity

  /** The state of a buffer. */
  datatype Buffer = Buffer(packets: seq<Packet>, bytes: nat, peak: nat, capacity: nat) {
    ghost predicate Ok() {
      && Sorted(packets)
      && bytes == SizeOf(packets)
      && bytes <= peak
      && bytes <= capacity
      && forall q :: q in packets ==> q.tbNum > 0 && q.tbDen > 0
    }

    /** The room left; the bound guards against a store already above its capacity. */
    function Room(): nat {
      capacity - (if bytes <= capacity then bytes else capacity)
    }

    ghost function PushOutcome(p: Packet): PushResult {
      if p.tbNum <= 0 || p.tbDen <= 0 then MissingTiming
      else if HasCts(packets, p.cts) then DuplicateSourceCts
      else if p.size > Room() then Capacity
      else Retained
    }

    ghost function Pushed(p: Packet): Buffer {
      if PushOutcome(p) != Retained then this
      else Buffer(Insert(packets, p), bytes + p.size, if bytes + p.size > peak then bytes + p.size else peak, capacity)
    }

    function Discarded(c: nat): Buffer {
      this.(packets := From(packets, c), bytes := SizeOf(From(packets, c)))
    }

    function Resized(limit: nat): Buffer {
      if limit < bytes then this else this.(capacity := limit)
    }

    function Cleared(): Buffer {
      this.(packets := [], bytes := 0)
    }
  }

  /** A push keeps the store sorted, its byte count exact and its bound respected; only a retained
      packet changes it, and then by exactly that packet. */
  lemma PushKeepsStore(b: Buffer, p: Packet)
    requires b.Ok()
    ensures b.Pushed(p).Ok()
    ensures b.PushOutcome(p).Retained? ==>
              && multiset(b.Pushed(p).packets) == multiset(b.packets) + multiset{p}
              && b.bytes + p.size <= b.capacity
    ensures b.PushOutcome(p) == Capacity ==> b.bytes + p.size > b.capacity
    ensures b.peak <= b.Pushed(p).peak && b.Pushed(p).peak in {b.peak, b.Pushed(p).bytes}
  {
    if b.PushOutcome(p) == Retained {
      InsertSorted(b.packets, p);
      InsertMembers(b.packets, p);
      SizeOfInsert(b.packets, p);
    }
  }

  lemma DiscardKeepsStore(b: Buffer, c: nat)
    requires b.Ok()
    ensures b.Discarded(c).Ok() && b.Discarded(c).bytes <= b.bytes
    ensures forall q :: q in b.Discarded(c).packets <==> q in b.packets && q.cts >= c
  {
    FromMembers(b.packets, c);
    SizeOfFrom(b.packets, c);
  }

  class EncodedPacketBuffer {
    var packets: seq<Packet>
    var bytes: nat
    var peakBytes: nat
    var capacityBytes: nat

    function View(): Buffer
      reads this
    {
      Buffer(packets, bytes, peakBytes, capacityBytes)
    }

    ghost predicate Valid()
      reads this
    {
      View().Ok()
    }

    constructor (capacityBytes: nat)
      ensures Valid() && View() == Buffer([], 0, 0, capacityBytes)
    {
      packets, bytes, peakBytes := [], 0, 0;
      this.capacityBytes := capacityBytes;
    }

    method Push(packet: Packet) returns (result: PushResult)
      requires Valid()
      modifies this
      ensures Valid()
      ensures result == old(View()).PushOutcome(packet)
      ensures View() == old(View()).Pushed(packet)
    {
      hide Insert, SizeOf;
      PushKeepsStore(View(), packet);
      if packet.tbNum <= 0 || packet.tbDen <= 0 {
        return MissingTiming;
      }
      var known := Contains(packet.cts);
      if known {
        return DuplicateSourceCts;
      }
      if packet.size > capacityBytes - (if bytes <= capacityBytes then bytes else capacityBytes) {
        return Capacity;
      }
      bytes := bytes + packet.size;
      peakBytes := if bytes > peakBytes then bytes else peakBytes;
      packets := Insert(packets, packet);
      return Retained;
    }

    method Clear()
      requires Valid()
      modifies this
      ensures Valid() && View() == old(View()).Cleared()
    {
      packets, bytes := [], 0;
    }

    method DiscardBefore(sourceCts: nat)
      requires Valid()
      modifies this
      ensures Valid() && View() == old(View()).Discarded(sourceCts)
    {
      hide From, UpTo, SizeOf;
      DiscardKeepsStore(View(), sourceCts);
      ghost var all, k := packets, 0;
      while |packets| > 0 && packets[0].cts < sourceCts
        invariant 0 <= k <= |all| && packets == all[k..]
        invariant k > 0 ==> all[k - 1].cts < sourceCts
        invariant bytes == SizeOf(packets)
        invariant peakBytes == old(peakBytes) && capacityBytes == old(capacityBytes)
      {
        SizeOfFirst(packets);
        bytes := bytes - packets[0].size;
        packets, k := packets[1..], k + 1;
      }
      CutAt(all, sourceCts, k);
    }

    method Find(sourceCts: nat) returns (found: Option<Packet>)
      requires Valid()
      ensures found.Some? <==> HasCts(packets, sourceCts)
      ensures found.Some? ==> found.value in packets && found.value.cts == sourceCts
    {
      for i := 0 to |packets|
        invariant forall q :: q in packets[..i] ==> q.cts != sourceCts
      {
        if packets[i].cts == sourceCts {
          return Some(packets[i]);
        }
      }
      return None;
    }

    method Contains(sourceCts: nat) returns (found: bool)
      requires Valid()
      ensures found <==> HasCts(packets, sourceCts)
    {
      var packet := Find(sourceCts);
      found := packet.Some?;
    }

    /** The ordered packets at or below a CTS. */
    method SnapshotThrough(sourceCts: nat) returns (result: seq<Packet>)
      requires Valid()
      ensures result == UpTo(packets, sourceCts)
    {
      result := [];
      var i := 0;
      while i < |packets| && packets[i].cts <= sourceCts
        invariant 0 <= i <= |packets| && result == packets[..i]
        invariant i > 0 ==> packets[i - 1].cts <= sourceCts
      {
        result := result + [packets[i]];
        i := i + 1;
      }
      CutAt(packets, sourceCts + 1, i);
    }

    method SetCapacityBytes(limit: nat) returns (ok: bool)
      requires Valid()
      modifies this
      ensures Valid() && View() == old(View()).Resized(limit)
      ensures ok <==> old(bytes) <= limit
    {
      if limit < bytes {
        return false;
      }
      capacityBytes := limit;
      return true;
    }
  }
}
