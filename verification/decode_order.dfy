/** The decode order: a stable sort by (DTS, PTS). */
module DecodeOrder {
  import opened Packets

  predicate DecodesBefore(x: Packet, y: Packet) {
    x.dts < y.dts || (x.dts == y.dts && x.pts < y.pts)
  }

  predicate SameKey(x: Packet, y: Packet) {
    x.dts == y.dts && x.pts == y.pts
  }

  ghost predicate DecodeSorted(s: seq<Packet>) {
    forall i, j :: 0 <= i < j < |s| ==> !DecodesBefore(s[j], s[i])
  }

  /** The packets that compare equal to `key`, in their given order. */
  function Ties(s: seq<Packet>, key: Packet): seq<Packet> {
    if |s| == 0 then []
    else Ties(s[..|s| - 1], key) + (if SameKey(s[|s| - 1], key) then [s[|s| - 1]] else [])
  }

  /** What a stable sort owes its caller: ordered, a permutation, ties in input order. */
  ghost predicate StableSortOf(r: seq<Packet>, s: seq<Packet>) {
    && DecodeSorted(r)
    && multiset(r) == multiset(s)
    && forall key :: Ties(r, key) == Ties(s, key)
  }

  /** Places `p` behind every packet that does not decode after it. */
  function Place(r: seq<Packet>, p: Packet): seq<Packet> {
    if |r| == 0 || !DecodesBefore(p, r[|r| - 1]) then r + [p]
    else Place(r[..|r| - 1], p) + [r[|r| - 1]]
  }

  function DecodeSort(s: seq<Packet>): seq<Packet> {
    if |s| == 0 then [] else Place(DecodeSort(s[..|s| - 1]), s[|s| - 1])
  }

  lemma TiesAppend(s: seq<Packet>, p: Packet, key: Packet)
    ensures Ties(s + [p], key) == Ties(s, key) + (if SameKey(p, key) then [p] else [])
  {
    assert (s + [p])[..|s|] == s;
  }

  lemma {:induction false} PlaceMembers(r: seq<Packet>, p: Packet)
    ensures multiset(Place(r, p)) == multiset(r) + multiset{p}
    ensures |Place(r, p)| == |r| + 1
    ensures forall q :: q in Place(r, p) <==> q in r || q == p
  {
    if |r| == 0 || !DecodesBefore(p, r[|r| - 1]) {
    } else {
      PlaceMembers(r[..|r| - 1], p);
      assert r == r[..|r| - 1] + [r[|r| - 1]];
    }
  }

  lemma {:induction false} PlaceSorted(r: seq<Packet>, p: Packet)
    requires DecodeSorted(r)
    ensures DecodeSorted(Place(r, p))
  {
    if |r| == 0 || !DecodesBefore(p, r[|r| - 1]) {
    } else {
      var init, last := r[..|r| - 1], r[|r| - 1];
      PlaceSorted(init, p);
      PlaceMembers(init, p);
      forall i | 0 <= i < |init| + 1 ensures !DecodesBefore(last, Place(init, p)[i]) {
        assert Place(init, p)[i] in Place(init, p);
      }
    }
  }

  lemma {:induction false} PlaceTies(r: seq<Packet>, p: Packet, key: Packet)
    requires DecodeSorted(r)
    ensures Ties(Place(r, p), key) == Ties(r, key) + (if SameKey(p, key) then [p] else [])
  {
    if |r| == 0 || !DecodesBefore(p, r[|r| - 1]) {
      TiesAppend(r, p, key);
    } else {
      var init, last := r[..|r| - 1], r[|r| - 1];
      PlaceTies(init, p, key);
      TiesAppend(Place(init, p), last, key);
      assert r == init + [last];
      TiesAppend(init, last, key);
    }
  }

  /** `DecodeSort` is a stable sort. */
  lemma {:induction false} DecodeSortIsStable(s: seq<Packet>)
    ensures StableSortOf(DecodeSort(s), s)
    ensures |DecodeSort(s)| == |s|
  {
    if |s| > 0 {
      var init, last := s[..|s| - 1], s[|s| - 1];
      assert s == init + [last];
      DecodeSortIsStable(init);
      PlaceSorted(DecodeSort(init), last);
      PlaceMembers(DecodeSort(init), last);
      forall key ensures Ties(DecodeSort(s), key) == Ties(s, key) {
        PlaceTies(DecodeSort(init), last, key);
        TiesAppend(init, last, key);
      }
    }
  }

  lemma DecodeSortPermutes(s: seq<Packet>)
    ensures multiset(DecodeSort(s)) == multiset(s) && |DecodeSort(s)| == |s|
  {
    DecodeSortIsStable(s);
  }

  lemma {:induction false} TiesOf(s: seq<Packet>, key: Packet)
    ensures forall q :: q in Ties(s, key) <==> q in s && SameKey(q, key)
    ensures |s| > 0 && SameKey(s[|s| - 1], key) ==>
              Ties(s, key) != [] && Ties(s, key)[|Ties(s, key)| - 1] == s[|s| - 1]
  {
    if |s| > 0 {
      assert s == s[..|s| - 1] + [s[|s| - 1]];
      TiesOf(s[..|s| - 1], key);
    }
  }

  lemma StableSortLast(r: seq<Packet>, t: seq<Packet>)
    requires StableSortOf(r, t) && DecodeSorted(t) && |r| > 0
    ensures |t| == |r| && r[|r| - 1] == t[|t| - 1]
  {
    assert |multiset(r)| == |r| && |multiset(t)| == |t|;
    var n := |r| - 1;
    assert r[n] in multiset(t) && t[n] in multiset(r);
    var i :| 0 <= i <= n && t[i] == r[n];
    var j :| 0 <= j <= n && r[j] == t[n];
    assert SameKey(t[n], r[n]);
    TiesOf(r, r[n]);
    TiesOf(t, r[n]);
    assert Ties(r, r[n]) == Ties(t, r[n]);
  }

  /** A stable sort is determined by its input, so any correct `std::stable_sort` returns `DecodeSort`. */
  lemma {:induction false} StableSortUnique(r: seq<Packet>, s: seq<Packet>)
    requires StableSortOf(r, s)
    ensures r == DecodeSort(s)
  {
    DecodeSortIsStable(s);
    SortedUnique(r, DecodeSort(s));
  }

  lemma TiesInit(r: seq<Packet>, t: seq<Packet>, last: Packet, key: Packet)
    requires Ties(r + [last], key) == Ties(t + [last], key)
    ensures Ties(r, key) == Ties(t, key)
  {
    TiesAppend(r, last, key);
    TiesAppend(t, last, key);
    var x, y, e := Ties(r, key), Ties(t, key), if SameKey(last, key) then [last] else [];
    assert |x| == |y| && x == (x + e)[..|x|] == (y + e)[..|y|] == y;
  }

  lemma StableSortInit(r: seq<Packet>, t: seq<Packet>, last: Packet)
    requires StableSortOf(r + [last], t + [last])
    ensures StableSortOf(r, t)
  {
    forall key ensures Ties(r, key) == Ties(t, key) {
      TiesInit(r, t, last, key);
    }
    forall i, j | 0 <= i < j < |r| ensures !DecodesBefore(r[j], r[i]) {
      assert (r + [last])[i] == r[i] && (r + [last])[j] == r[j];
    }
    var m, n := multiset(r), multiset(t);
    assert m + multiset{last} == n + multiset{last};
    assert m == (m + multiset{last}) - multiset{last} == n;
  }

  lemma {:induction false} SortedUnique(r: seq<Packet>, t: seq<Packet>)
    requires StableSortOf(r, t) && DecodeSorted(t)
    ensures r == t
    decreases |r|
  {
    if |r| == 0 {
      assert |multiset(r)| == |multiset(t)| == |t|;
    } else {
      StableSortLast(r, t);
      var n := |r| - 1;
      assert r == r[..n] + [r[n]] && t == t[..n] + [r[n]];
      StableSortInit(r[..n], t[..n], r[n]);
      SortedUnique(r[..n], t[..n]);
    }
  }

  /** `SortForDecodeOrder`, by insertion; the library's `std::stable_sort` has the same specification. */
  method SortForDecodeOrder(packets: seq<Packet>) returns (sorted: seq<Packet>)
    ensures sorted == DecodeSort(packets)
    ensures StableSortOf(sorted, packets)
  {
    sorted := [];
    for i := 0 to |packets|
      invariant sorted == DecodeSort(packets[..i])
    {
      assert packets[..i + 1][..i] == packets[..i];
      var k := |sorted|;
      assert sorted[..k] == sorted;
      while k > 0 && DecodesBefore(packets[i], sorted[k - 1])
        invariant 0 <= k <= |sorted|
        invariant Place(sorted, packets[i]) == Place(sorted[..k], packets[i]) + sorted[k..]
      {
        k := k - 1;
        assert sorted[..k + 1][..k] == sorted[..k];
        assert sorted[k..] == [sorted[k]] + sorted[k + 1..];
      }
      sorted := sorted[..k] + [packets[i]] + sorted[k..];
    }
    assert packets[..|packets|] == packets;
    DecodeSortIsStable(packets);
  }
}
