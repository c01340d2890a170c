/** Selection of the packet range that two streams have in common. */
module CommonRange {
  import opened Packets
  import opened DecodeOrder

  /** Two successive CTS values differ by the expected step, give or take one; step 0 expects nothing. */
  predicate OnCadence(previous: nat, next: nat, step: nat) {
    step == 0 || (previous + step <= next + 1 && next <= previous + step + 1)
  }

  /** The first `k` values of both lists agree, stay at or below `upper` and keep the cadence. */
  ghost predicate CommonPrefix(a: seq<nat>, b: seq<nat>, upper: nat, step: nat, k: nat) {
    && k <= |a| && k <= |b|
    && (forall i :: 0 <= i < k ==> a[i] == b[i] && a[i] <= upper)
    && (forall i :: 1 <= i < k ==> OnCadence(a[i - 1], a[i], step))
  }

  /** The length of the longest common prefix. */
  ghost function PrefixLength(a: seq<nat>, b: seq<nat>, upper: nat, step: nat): (k: nat)
    ensures CommonPrefix(a, b, upper, step, k)
    ensures forall j: nat :: CommonPrefix(a, b, upper, step, j) ==> j <= k
  {
    Longest(a, b, upper, step, 0)
  }

  ghost function Longest(a: seq<nat>, b: seq<nat>, upper: nat, step: nat, from: nat): (k: nat)
    requires CommonPrefix(a, b, upper, step, from)
    ensures CommonPrefix(a, b, upper, step, k)
    ensures forall j: nat :: CommonPrefix(a, b, upper, step, j) ==> j <= k
    decreases |a| - from
  {
    if CommonPrefix(a, b, upper, step, from + 1) then Longest(a, b, upper, step, from + 1) else from
  }

  lemma PrefixLengthIs(a: seq<nat>, b: seq<nat>, upper: nat, step: nat, k: nat)
    requires CommonPrefix(a, b, upper, step, k) && !CommonPrefix(a, b, upper, step, k + 1)
    ensures PrefixLength(a, b, upper, step) == k
  {
    var n := PrefixLength(a, b, upper, step);
    if k < n {
      assert CommonPrefix(a, b, upper, step, k + 1);
    }
  }

  /** The declared meaning of `SelectCommonPrefixEnd`. */
  ghost function PrefixEnd(a: seq<Packet>, b: seq<Packet>, start: nat, upper: nat, step: nat): Option<nat> {
    var x, y := CtsOf(From(a, start)), CtsOf(From(b, start));
    var k := PrefixLength(x, y, upper, step);
    if k == 0 then None else Some(x[k - 1])
  }

  method SkipBelow(s: seq<Packet>, start: nat) returns (i: nat)
    requires Sorted(s)
    ensures i <= |s| && s[i..] == From(s, start)
  {
    i := 0;
    while i < |s| && s[i].cts < start
      invariant 0 <= i <= |s| && (i > 0 ==> s[i - 1].cts < start)
    {
      i := i + 1;
    }
    CutAt(s, start, i);
  }

  method SelectCommonPrefixEnd(a: seq<Packet>, b: seq<Packet>, start: nat, upper: nat, step: nat)
      returns (result: Option<nat>)
    requires Sorted(a) && Sorted(b)
    ensures result == PrefixEnd(a, b, start, upper, step)
  {
    var i := SkipBelow(a, start);
    var j := SkipBelow(b, start);
    result := PrefixFrom(a[i..], b[j..], upper, step);
  }

  /** The scan over the two snapshots, from their first packets at or above the start. */
  method PrefixFrom(a: seq<Packet>, b: seq<Packet>, upper: nat, step: nat) returns (result: Option<nat>)
    requires Sorted(a) && Sorted(b)
    ensures var k := PrefixLength(CtsOf(a), CtsOf(b), upper, step);
            result == if k == 0 then None else Some(a[k - 1].cts)
  {
    ghost var x, y := CtsOf(a), CtsOf(b);
    var i := 0;
    result := None;
    while i < |a| && i < |b|
      invariant 0 <= i <= |a| && i <= |b|
      invariant CommonPrefix(x, y, upper, step, i)
      invariant result == if i == 0 then None else Some(x[i - 1])
    {
      var ctsA, ctsB := a[i].cts, b[i].cts;
      if ctsA > upper || ctsB > upper || ctsA != ctsB {
        break;
      }
      if result.Some? && step != 0 {
        var delta := ctsA - result.value;
        var difference := if delta > step then delta - step else step - delta;
        if difference > 1 {
          break;
        }
      }
      result := Some(ctsA);
      i := i + 1;
    }
    PrefixLengthIs(x, y, upper, step, i);
  }

  /** Raising the bound never shortens the prefix. */
  lemma PrefixMonotone(a: seq<nat>, b: seq<nat>, upper: nat, upper': nat, step: nat)
    requires upper <= upper'
    ensures PrefixLength(a, b, upper, step) <= PrefixLength(a, b, upper', step)
  {
    assert CommonPrefix(a, b, upper', step, PrefixLength(a, b, upper, step));
  }

  lemma CtsIncrease(s: seq<Packet>, lo: int, i: nat, j: nat)
    requires Sorted(s) && i <= j < |From(s, lo)|
    ensures From(s, lo)[i].cts <= From(s, lo)[j].cts
    ensures i < j ==> From(s, lo)[i].cts < From(s, lo)[j].cts
    ensures lo <= From(s, lo)[i].cts
  {
    hide From, UpTo;
    FromMembers(s, lo);
    assert From(s, lo)[i] in From(s, lo);
  }

  lemma PrefixEndMonotone(a: seq<Packet>, b: seq<Packet>, start: nat, upper: nat, upper': nat, step: nat)
    requires Sorted(a) && upper <= upper'
    requires PrefixEnd(a, b, start, upper, step).Some?
    ensures PrefixEnd(a, b, start, upper', step).Some?
    ensures PrefixEnd(a, b, start, upper, step).value <= PrefixEnd(a, b, start, upper', step).value
  {
    hide From, UpTo;
    var x, y := CtsOf(From(a, start)), CtsOf(From(b, start));
    PrefixMonotone(x, y, upper, upper', step);
    CtsIncrease(a, start, PrefixLength(x, y, upper, step) - 1, PrefixLength(x, y, upper', step) - 1);
  }

  /** Selecting again with the selected end as the bound selects the same end. */
  lemma PrefixEndIdempotent(a: seq<Packet>, b: seq<Packet>, start: nat, upper: nat, step: nat)
    requires Sorted(a)
    requires PrefixEnd(a, b, start, upper, step).Some?
    ensures var end := PrefixEnd(a, b, start, upper, step);
            start <= end.value <= upper && PrefixEnd(a, b, start, end.value, step) == end
  {
    hide From, UpTo;
    var x, y := CtsOf(From(a, start)), CtsOf(From(b, start));
    var k := PrefixLength(x, y, upper, step);
    forall i | 0 <= i < k ensures x[i] <= x[k - 1] && start <= x[i] {
      CtsIncrease(a, start, i, k - 1);
    }
    forall i | k <= i < |x| ensures x[k - 1] < x[i] {
      CtsIncrease(a, start, k - 1, i);
    }
    assert CommonPrefix(x, y, x[k - 1], step, k);
    if k < |x| && k < |y| {
      assert x[k - 1] < x[k];
    }
    PrefixLengthIs(x, y, x[k - 1], step, k);
  }

  /** Up to the selected end, both streams hold exactly the same CTS values, on cadence. */
  lemma PrefixAgrees(a: seq<Packet>, b: seq<Packet>, start: nat, upper: nat, step: nat)
    requires Sorted(a) && Sorted(b)
    requires PrefixEnd(a, b, start, upper, step).Some?
    ensures var end := PrefixEnd(a, b, start, upper, step).value;
            var k := PrefixLength(CtsOf(From(a, start)), CtsOf(From(b, start)), upper, step);
            && Between(a, start, end) == From(a, start)[..k]
            && Between(b, start, end) == From(b, start)[..k]
            && CtsOf(Between(a, start, end)) == CtsOf(Between(b, start, end))
            && 0 < k && From(a, start)[k - 1].cts == end == From(b, start)[k - 1].cts
  {
    hide From, UpTo;
    FromMembers(a, start);
    FromMembers(b, start);
    var f, g := From(a, start), From(b, start);
    var x, y := CtsOf(f), CtsOf(g);
    var k := PrefixLength(x, y, upper, step);
    assert x[k - 1] == y[k - 1];
    UpToIndex(f, k - 1);
    UpToIndex(g, k - 1);
    assert CtsOf(f[..k]) == x[..k] == y[..k] == CtsOf(g[..k]);
  }

  lemma UpToIndex(s: seq<Packet>, i: nat)
    requires Sorted(s) && i < |s|
    ensures UpTo(s, s[i].cts) == s[..i + 1]
  {
    CutAt(s, s[i].cts + 1, i + 1);
  }

  /** The least CTS at or above `requested` that is a keyframe in both streams. */
  ghost predicate IsCommonStart(a: seq<Packet>, b: seq<Packet>, requested: nat, c: nat) {
    && requested <= c && KeyframeAt(a, c) && KeyframeAt(b, c)
    && forall d: nat :: requested <= d < c ==> !(KeyframeAt(a, d) && KeyframeAt(b, d))
  }

  ghost predicate NoCommonStart(a: seq<Packet>, b: seq<Packet>, requested: nat) {
    forall d: nat :: requested <= d ==> !(KeyframeAt(a, d) && KeyframeAt(b, d))
  }

  ghost function CommonStart(a: seq<Packet>, b: seq<Packet>, requested: nat): (r: Option<nat>)
    ensures r.Some? ==> IsCommonStart(a, b, requested, r.value)
    ensures r.None? ==> NoCommonStart(a, b, requested)
  {
    LeastCommonKey(a, b, requested, MaxKey(a))
  }

  /** An upper bound on every CTS in the list. */
  ghost function MaxKey(s: seq<Packet>): (m: nat)
    ensures forall q :: q in s ==> q.cts < m
  {
    if |s| == 0 then 0
    else
      var m := MaxKey(s[..|s| - 1]);
      assert s == s[..|s| - 1] + [s[|s| - 1]];
      if s[|s| - 1].cts < m then m else s[|s| - 1].cts + 1
  }

  ghost function LeastCommonKey(a: seq<Packet>, b: seq<Packet>, c: nat, limit: nat): (r: Option<nat>)
    requires forall q :: q in a ==> q.cts < limit
    ensures r.Some? ==> IsCommonStart(a, b, c, r.value)
    ensures r.None? ==> NoCommonStart(a, b, c)
    decreases limit - c
  {
    if limit <= c then None
    else if KeyframeAt(a, c) && KeyframeAt(b, c) then Some(c)
    else LeastCommonKey(a, b, c + 1, limit)
  }

  lemma CommonStartIs(a: seq<Packet>, b: seq<Packet>, requested: nat, c: nat)
    requires IsCommonStart(a, b, requested, c)
    ensures CommonStart(a, b, requested) == Some(c)
  {
  }

  method FindKeyframe(s: seq<Packet>, c: nat) returns (found: bool)
    requires Sorted(s)
    ensures found <==> KeyframeAt(s, c)
  {
    for i := 0 to |s|
      invariant forall q :: q in s[..i] ==> q.cts != c
    {
      if s[i].cts == c {
        assert forall q :: q in s && q.cts == c ==> q == s[i];
        return s[i].keyframe;
      }
    }
    return false;
  }

  method SelectCommonStart(a: seq<Packet>, b: seq<Packet>, requested: nat) returns (result: Option<nat>)
    requires Sorted(a) && Sorted(b)
    ensures result == CommonStart(a, b, requested)
  {
    for i := 0 to |a|
      invariant forall q :: q in a[..i] ==> !(requested <= q.cts && q.keyframe && KeyframeAt(b, q.cts))
    {
      if a[i].cts >= requested && a[i].keyframe {
        var other := FindKeyframe(b, a[i].cts);
        if other {
          assert a[i] in a && KeyframeAt(a, a[i].cts);
          EarlierIsBelow(a, i);
          CommonStartIs(a, b, requested, a[i].cts);
          return Some(a[i].cts);
        }
      }
    }
    assert NoCommonStart(a, b, requested);
    return None;
  }

  lemma EarlierIsBelow(s: seq<Packet>, i: nat)
    requires Sorted(s) && i < |s|
    ensures forall q :: q in s && q.cts < s[i].cts ==> q in s[..i]
  {
    forall q | q in s && q.cts < s[i].cts ensures q in s[..i] {
      var j :| 0 <= j < |s| && s[j] == q;
      assert s[..i][j] == q;
    }
  }

  // ---- whole-range validation

  datatype Range = Range(start: nat, end: nat)

  datatype RangeFailure = NoMismatch | MissingPacket | InvalidPacketOrdering

  datatype RangeResult = RangeResult(range: Option<Range>, failure: RangeFailure, mismatches: nat)

  ghost function Missing(a: seq<Packet>, b: seq<Packet>): nat {
    if |a| == 0 then 0
    else Missing(a[..|a| - 1], b) + (if HasCts(b, a[|a| - 1].cts) then 0 else 1)
  }

  ghost predicate Agree(a: seq<Packet>, b: seq<Packet>, range: Range) {
    forall c: nat :: range.start <= c <= range.end ==> (HasCts(a, c) <==> HasCts(b, c))
  }

  lemma {:induction false} NoneMissing(a: seq<Packet>, b: seq<Packet>)
    ensures Missing(a, b) == 0 <==> forall p :: p in a ==> HasCts(b, p.cts)
  {
    if |a| > 0 {
      NoneMissing(a[..|a| - 1], b);
      assert a == a[..|a| - 1] + [a[|a| - 1]];
    }
  }

  method SelectPackets(s: seq<Packet>, range: Range) returns (result: seq<Packet>)
    ensures result == Between(s, range.start, range.end)
  {
    result := [];
    for i := 0 to |s|
      invariant result == Between(s[..i], range.start, range.end)
    {
      assert s[..i + 1] == s[..i] + [s[i]];
      FromSnoc(s[..i], s[i], range.start);
      UpToSnoc(From(s[..i], range.start), s[i], range.end);
      if s[i].cts >= range.start && s[i].cts <= range.end {
        result := result + [s[i]];
      }
    }
    assert s[..|s|] == s;
  }

  method ContainsCts(s: seq<Packet>, c: nat) returns (found: bool)
    ensures found <==> HasCts(s, c)
  {
    for i := 0 to |s|
      invariant forall q :: q in s[..i] ==> q.cts != c
    {
      if s[i].cts == c {
        return true;
      }
    }
    return false;
  }

  method CountMissing(a: seq<Packet>, b: seq<Packet>) returns (count: nat)
    requires Sorted(b)
    ensures count == Missing(a, b)
  {
    count := 0;
    for i := 0 to |a|
      invariant count == Missing(a[..i], b)
    {
      assert a[..i + 1][..i] == a[..i];
      var known := ContainsCts(b, a[i].cts);
      if !known {
        count := count + 1;
      }
    }
    assert a[..|a|] == a;
  }

  method HasValidDecodeOrder(packets: seq<Packet>) returns (ok: bool)
    ensures ok
  {
    var sorted := SortForDecodeOrder(packets);
    var i := 1;
    while i < |sorted| {
      assert !DecodesBefore(sorted[i], sorted[i - 1]);
      if sorted[i - 1].dts > sorted[i].dts {
        return false;
      }
      i := i + 1;
    }
    return true;
  }

  /** The range is accepted exactly when both streams hold the same CTS values in it. The decode-order
      test looks at its own sorted copy, so `InvalidPacketOrdering` is never reported. */
  method ValidateCommonPacketRange(a: seq<Packet>, b: seq<Packet>, range: Range) returns (result: RangeResult)
    requires Sorted(a) && Sorted(b)
    ensures result.range == Some(range) <==> Agree(a, b, range)
    ensures result.range.Some? ==> result.range.value == range
    ensures result.failure == if result.range.Some? then NoMismatch else MissingPacket
    ensures result.mismatches ==
              Missing(Between(a, range.start, range.end), b) + Missing(Between(b, range.start, range.end), a)
  {
    var packetsA := SelectPackets(a, range);
    var packetsB := SelectPackets(b, range);
    var missingInB := CountMissing(packetsA, b);
    var missingInA := CountMissing(packetsB, a);
    AgreeIffNoneMissing(a, b, range);
    var none: nat := 0;
    if missingInB + missingInA != none {
      return RangeResult(None, MissingPacket, missingInB + missingInA);
    }
    var orderedA := HasValidDecodeOrder(packetsA);
    var orderedB := HasValidDecodeOrder(packetsB);
    if !orderedA || !orderedB {
      return RangeResult(None, InvalidPacketOrdering, none);
    }
    return RangeResult(Some(range), NoMismatch, none);
  }

  lemma AgreeIffNoneMissing(a: seq<Packet>, b: seq<Packet>, range: Range)
    requires Sorted(a) && Sorted(b)
    ensures Agree(a, b, range) <==>
              Missing(Between(a, range.start, range.end), b) + Missing(Between(b, range.start, range.end), a) == 0
  {
    hide From, UpTo;
    var x, y := Between(a, range.start, range.end), Between(b, range.start, range.end);
    BetweenMembers(a, range.start, range.end);
    BetweenMembers(b, range.start, range.end);
    NoneMissing(x, b);
    NoneMissing(y, a);
    if Agree(a, b, range) {
      forall p | p in x ensures HasCts(b, p.cts) { assert HasCts(a, p.cts); }
      forall p | p in y ensures HasCts(a, p.cts) { assert HasCts(b, p.cts); }
    }
  }
}
