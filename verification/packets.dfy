/** Encoded packets and the CTS-ordered packet lists that stand for `std::map<uint64_t, EncodedPacket>`.
    Only the payload length of a packet is kept; CTS values are naturals. */
module Packets {

  datatype Option<+T> = None | Some(value: T)

  datatype Packet = Packet(cts: nat, pts: int, dts: int, tbNum: int, tbDen: int, keyframe: bool, size: nat)

  /** The iteration order of a map keyed by CTS: strictly increasing. */
  ghost predicate Sorted(s: seq<Packet>) {
    forall i, j :: 0 <= i < j < |s| ==> s[i].cts < s[j].cts
  }

  function CtsOf(s: seq<Packet>): (r: seq<nat>)
    ensures |r| == |s|
    ensures forall i :: 0 <= i < |s| ==> r[i] == s[i].cts
  {
    seq(|s|, i requires 0 <= i < |s| => s[i].cts)
  }

  ghost predicate HasCts(s: seq<Packet>, c: nat) {
    exists q :: q in s && q.cts == c
  }

  ghost predicate KeyframeAt(s: seq<Packet>, c: nat) {
    exists q :: q in s && q.cts == c && q.keyframe
  }

  function SizeOf(s: seq<Packet>): nat {
    if |s| == 0 then 0 else SizeOf(s[..|s| - 1]) + s[|s| - 1].size
  }

  /** The packets at or above `c`. */
  function From(s: seq<Packet>, c: int): seq<Packet> {
    if |s| == 0 then []
    else From(s[..|s| - 1], c) + (if s[|s| - 1].cts >= c then [s[|s| - 1]] else [])
  }

  /** The packets at or below `c`. */
  function UpTo(s: seq<Packet>, c: int): seq<Packet> {
    if |s| == 0 then []
    else UpTo(s[..|s| - 1], c) + (if s[|s| - 1].cts <= c then [s[|s| - 1]] else [])
  }

  function Between(s: seq<Packet>, lo: int, hi: int): seq<Packet> {
    UpTo(From(s, lo), hi)
  }

  /** Insertion at the CTS position. */
  function Insert(s: seq<Packet>, p: Packet): seq<Packet> {
    if |s| == 0 || s[|s| - 1].cts < p.cts then s + [p]
    else Insert(s[..|s| - 1], p) + [s[|s| - 1]]
  }

  function MaxCts(s: seq<Packet>): nat {
    if |s| == 0 then 0 else s[|s| - 1].cts
  }

  // ---- sorted lists

  lemma Snoc(s: seq<Packet>)
    requires |s| > 0
    ensures s == s[..|s| - 1] + [s[|s| - 1]]
  {
  }

  lemma SortedSnoc(s: seq<Packet>, p: Packet)
    ensures Sorted(s + [p]) <==> Sorted(s) && forall q :: q in s ==> q.cts < p.cts
  {
    var t := s + [p];
    if Sorted(t) {
      forall i, j | 0 <= i < j < |s| ensures s[i].cts < s[j].cts { assert t[i].cts < t[j].cts; }
      forall q | q in s ensures q.cts < p.cts {
        var i :| 0 <= i < |s| && s[i] == q;
        assert t[i].cts < t[|s|].cts;
      }
    }
  }

  lemma SortedInit(s: seq<Packet>)
    requires Sorted(s) && |s| > 0
    ensures Sorted(s[..|s| - 1])
    ensures forall q :: q in s[..|s| - 1] ==> q.cts < s[|s| - 1].cts
  {
    Snoc(s);
    SortedSnoc(s[..|s| - 1], s[|s| - 1]);
  }

  lemma CtsConcat(x: seq<Packet>, y: seq<Packet>)
    ensures CtsOf(x + y) == CtsOf(x) + CtsOf(y)
  {
  }

  // ---- byte totals

  lemma {:induction false} SizeSplit(s: seq<Packet>, k: nat)
    requires k <= |s|
    ensures SizeOf(s) == SizeOf(s[..k]) + SizeOf(s[k..])
  {
    if k == |s| {
      assert s[..k] == s && s[k..] == [];
    } else {
      var n := |s| - 1;
      SizeSplit(s[..n], k);
      assert s[..n][..k] == s[..k];
      assert s[..n][k..] == s[k..][..n - k];
      assert s[k..][|s[k..]| - 1] == s[n];
    }
  }

  lemma SizeOfFirst(s: seq<Packet>)
    requires |s| > 0
    ensures SizeOf(s) == s[0].size + SizeOf(s[1..])
  {
    SizeSplit(s, 1);
    assert SizeOf(s[..1]) == SizeOf(s[..1][..0]) + s[0].size;
  }

  lemma {:induction false} SizeOfInsert(s: seq<Packet>, p: Packet)
    ensures SizeOf(Insert(s, p)) == SizeOf(s) + p.size
  {
    if |s| == 0 || s[|s| - 1].cts < p.cts {
      assert (s + [p])[..|s|] == s;
    } else {
      SizeOfInsert(s[..|s| - 1], p);
      var r := Insert(s[..|s| - 1], p);
      assert (r + [s[|s| - 1]])[..|r|] == r;
    }
  }

  lemma {:induction false} SizeOfFrom(s: seq<Packet>, c: int)
    ensures SizeOf(From(s, c)) <= SizeOf(s)
  {
    if |s| > 0 {
      SizeOfFrom(s[..|s| - 1], c);
      FromSnoc(s[..|s| - 1], s[|s| - 1], c);
      var r := From(s[..|s| - 1], c);
      assert (r + [s[|s| - 1]])[..|r|] == r;
      assert r + [] == r;
    }
  }

  // ---- cutting at a CTS

  lemma FromSnoc(s: seq<Packet>, p: Packet, c: int)
    ensures From(s + [p], c) == if p.cts >= c then From(s, c) + [p] else From(s, c)
  {
    assert (s + [p])[..|s|] == s;
    assert From(s, c) + [] == From(s, c);
  }

  lemma UpToSnoc(s: seq<Packet>, p: Packet, c: int)
    ensures UpTo(s + [p], c) == if p.cts <= c then UpTo(s, c) + [p] else UpTo(s, c)
  {
    assert (s + [p])[..|s|] == s;
    assert UpTo(s, c) + [] == UpTo(s, c);
  }

  lemma {:induction false} FromMembers(s: seq<Packet>, c: int)
    ensures forall q :: q in From(s, c) <==> q in s && q.cts >= c
    ensures Sorted(s) ==> Sorted(From(s, c))
  {
    if |s| > 0 {
      var init, last := s[..|s| - 1], s[|s| - 1];
      Snoc(s);
      FromMembers(init, c);
      FromSnoc(init, last, c);
      SortedSnoc(init, last);
      SortedSnoc(From(init, c), last);
    }
  }

  lemma {:induction false} UpToMembers(s: seq<Packet>, c: int)
    ensures forall q :: q in UpTo(s, c) <==> q in s && q.cts <= c
    ensures Sorted(s) ==> Sorted(UpTo(s, c))
  {
    if |s| > 0 {
      var init, last := s[..|s| - 1], s[|s| - 1];
      Snoc(s);
      UpToMembers(init, c);
      UpToSnoc(init, last, c);
      SortedSnoc(init, last);
      SortedSnoc(UpTo(init, c), last);
    }
  }

  lemma BetweenMembers(s: seq<Packet>, lo: int, hi: int)
    ensures forall q :: q in Between(s, lo, hi) <==> q in s && lo <= q.cts <= hi
    ensures Sorted(s) ==> Sorted(Between(s, lo, hi))
  {
    FromMembers(s, lo);
    UpToMembers(From(s, lo), hi);
  }

  lemma {:induction false} FromAll(s: seq<Packet>, c: int)
    requires forall q :: q in s ==> q.cts >= c
    ensures From(s, c) == s
  {
    if |s| > 0 {
      Snoc(s);
      FromAll(s[..|s| - 1], c);
    }
  }

  lemma {:induction false} UpToAll(s: seq<Packet>, c: int)
    requires forall q :: q in s ==> q.cts <= c
    ensures UpTo(s, c) == s
  {
    if |s| > 0 {
      Snoc(s);
      UpToAll(s[..|s| - 1], c);
    }
  }

  lemma {:induction false} FromNone(s: seq<Packet>, c: int)
    requires forall q :: q in s ==> q.cts < c
    ensures From(s, c) == []
  {
    if |s| > 0 {
      Snoc(s);
      FromNone(s[..|s| - 1], c);
    }
  }

  lemma {:induction false} UpToNone(s: seq<Packet>, c: int)
    requires forall q :: q in s ==> q.cts > c
    ensures UpTo(s, c) == []
  {
    if |s| > 0 {
      Snoc(s);
      UpToNone(s[..|s| - 1], c);
    }
  }

  lemma {:induction false} FromConcat(x: seq<Packet>, y: seq<Packet>, c: int)
    ensures From(x + y, c) == From(x, c) + From(y, c)
  {
    if |y| == 0 {
      assert x + y == x;
    } else {
      var init, last := y[..|y| - 1], y[|y| - 1];
      Snoc(y);
      assert x + y == (x + init) + [last];
      FromConcat(x, init, c);
      FromSnoc(x + init, last, c);
      FromSnoc(init, last, c);
    }
  }

  lemma {:induction false} UpToConcat(x: seq<Packet>, y: seq<Packet>, c: int)
    ensures UpTo(x + y, c) == UpTo(x, c) + UpTo(y, c)
  {
    if |y| == 0 {
      assert x + y == x;
    } else {
      var init, last := y[..|y| - 1], y[|y| - 1];
      Snoc(y);
      assert x + y == (x + init) + [last];
      UpToConcat(x, init, c);
      UpToSnoc(x + init, last, c);
      UpToSnoc(init, last, c);
    }
  }

  lemma CutConcat(x: seq<Packet>, y: seq<Packet>, c: int)
    requires forall q :: q in x ==> q.cts < c
    requires forall q :: q in y ==> q.cts >= c
    ensures From(x + y, c) == y
    ensures UpTo(x + y, c - 1) == x
  {
    FromConcat(x, y, c);
    FromNone(x, c);
    FromAll(y, c);
    UpToConcat(x, y, c - 1);
    UpToAll(x, c - 1);
    UpToNone(y, c - 1);
  }

  /** In a sorted list, the cut falls at one index. */
  lemma CutAt(s: seq<Packet>, c: int, k: nat)
    requires Sorted(s) && k <= |s|
    requires k > 0 ==> s[k - 1].cts < c
    requires k < |s| ==> c <= s[k].cts
    ensures From(s, c) == s[k..]
    ensures UpTo(s, c - 1) == s[..k]
  {
    forall q | q in s[..k] ensures q.cts < c {
      var i :| 0 <= i < k && s[i] == q;
    }
    forall q | q in s[k..] ensures q.cts >= c {
      var i :| k <= i < |s| && s[i] == q;
    }
    assert s == s[..k] + s[k..];
    CutConcat(s[..k], s[k..], c);
  }

  /** A sorted list splits at any CTS. */
  lemma {:induction false} SplitAt(s: seq<Packet>, c: int)
    requires Sorted(s)
    ensures s == UpTo(s, c) + From(s, c + 1)
  {
    if |s| > 0 {
      var init, last := s[..|s| - 1], s[|s| - 1];
      Snoc(s);
      SortedInit(s);
      SplitAt(init, c);
      UpToSnoc(init, last, c);
      FromSnoc(init, last, c + 1);
      if last.cts <= c {
        FromNone(init, c + 1);
      }
    }
  }

  lemma {:induction false} FromFrom(s: seq<Packet>, lo: int, lo': int)
    requires lo <= lo'
    ensures From(From(s, lo), lo') == From(s, lo')
  {
    if |s| > 0 {
      var init, last := s[..|s| - 1], s[|s| - 1];
      Snoc(s);
      FromFrom(init, lo, lo');
      FromSnoc(init, last, lo);
      FromSnoc(init, last, lo');
      FromSnoc(From(init, lo), last, lo');
    }
  }

  /** Extending an interval upwards appends the packets of the extension. */
  lemma {:induction false} BetweenExtends(s: seq<Packet>, lo: int, mid: int, hi: int)
    requires Sorted(s) && lo - 1 <= mid <= hi
    ensures Between(s, lo, hi) == Between(s, lo, mid) + Between(s, mid + 1, hi)
  {
    FromMembers(s, lo);
    FromFrom(s, lo, mid + 1);
    SplitAt(From(s, lo), mid);
    UpToConcat(UpTo(From(s, lo), mid), From(s, mid + 1), hi);
    UpToMembers(From(s, lo), mid);
    UpToAll(UpTo(From(s, lo), mid), hi);
  }

  // ---- insertion

  lemma {:induction false} InsertMembers(s: seq<Packet>, p: Packet)
    ensures multiset(Insert(s, p)) == multiset(s) + multiset{p}
    ensures forall q :: q in Insert(s, p) <==> q in s || q == p
  {
    if |s| == 0 || s[|s| - 1].cts < p.cts {
    } else {
      Snoc(s);
      InsertMembers(s[..|s| - 1], p);
    }
  }

  lemma InsertCts(s: seq<Packet>, p: Packet)
    ensures forall c: nat :: HasCts(Insert(s, p), c) <==> HasCts(s, c) || c == p.cts
    ensures forall c: nat :: KeyframeAt(Insert(s, p), c) <==> KeyframeAt(s, c) || (c == p.cts && p.keyframe)
  {
    InsertMembers(s, p);
  }

  lemma {:induction false} InsertSorted(s: seq<Packet>, p: Packet)
    requires Sorted(s) && !HasCts(s, p.cts)
    ensures Sorted(Insert(s, p))
    ensures MaxCts(Insert(s, p)) == if p.cts > MaxCts(s) then p.cts else MaxCts(s)
  {
    if |s| == 0 || s[|s| - 1].cts < p.cts {
      SortedAppend(s, p);
    } else {
      var init, last := s[..|s| - 1], s[|s| - 1];
      assert last in s && last.cts != p.cts;
      SortedInit(s);
      InsertSorted(init, p);
      InsertMembers(init, p);
      SortedSnoc(Insert(init, p), last);
    }
  }

  lemma SortedAppend(s: seq<Packet>, p: Packet)
    requires Sorted(s) && (|s| > 0 ==> s[|s| - 1].cts < p.cts)
    ensures Sorted(s + [p])
  {
    if |s| > 0 {
      SortedInit(s);
      Snoc(s);
    }
    SortedSnoc(s, p);
  }

  lemma InsertSnoc(s: seq<Packet>, last: Packet, p: Packet)
    requires last.cts >= p.cts
    ensures Insert(s + [last], p) == Insert(s, p) + [last]
  {
    assert (s + [last])[..|s|] == s;
  }

  lemma InsertAbove(s: seq<Packet>, p: Packet)
    requires forall q :: q in s ==> q.cts < p.cts
    ensures Insert(s, p) == s + [p]
  {
    assert |s| > 0 ==> s[|s| - 1] in s;
  }

  lemma {:induction false} FromInsert(s: seq<Packet>, p: Packet, lo: int)
    requires Sorted(s)
    ensures From(Insert(s, p), lo) == if lo <= p.cts then Insert(From(s, lo), p) else From(s, lo)
  {
    if |s| == 0 || s[|s| - 1].cts < p.cts {
      FromSnoc(s, p, lo);
      FromMembers(s, lo);
      if |s| > 0 { SortedInit(s); Snoc(s); }
      InsertAbove(From(s, lo), p);
    } else {
      var init, last := s[..|s| - 1], s[|s| - 1];
      Snoc(s);
      SortedInit(s);
      FromInsert(init, p, lo);
      FromSnoc(Insert(init, p), last, lo);
      FromSnoc(init, last, lo);
      InsertSnoc(From(init, lo), last, p);
    }
  }

  lemma {:induction false} UpToInsert(s: seq<Packet>, p: Packet, hi: int)
    requires hi < p.cts
    ensures UpTo(Insert(s, p), hi) == UpTo(s, hi)
  {
    if |s| == 0 || s[|s| - 1].cts < p.cts {
      UpToSnoc(s, p, hi);
    } else {
      var init, last := s[..|s| - 1], s[|s| - 1];
      Snoc(s);
      UpToInsert(init, p, hi);
      UpToSnoc(Insert(init, p), last, hi);
      UpToSnoc(init, last, hi);
    }
  }

  /** An interval does not see an insertion outside it. */
  lemma BetweenInsert(s: seq<Packet>, p: Packet, lo: int, hi: int)
    requires Sorted(s) && (p.cts < lo || hi < p.cts)
    ensures Between(Insert(s, p), lo, hi) == Between(s, lo, hi)
  {
    FromInsert(s, p, lo);
    if lo <= p.cts {
      UpToInsert(From(s, lo), p, hi);
    }
  }
}
