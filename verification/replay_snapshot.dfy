/** Selection of the common range of a replay save. */
module ReplaySnapshot {
  import opened Packets

  /** The histories selected for a save, each in CTS order. */
  ghost predicate Selectable(sel: seq<seq<Packet>>) {
    |sel| > 0 && forall i :: 0 <= i < |sel| ==> sel[i] != [] && Sorted(sel[i])
  }

  /** The window that every selected history covers. */
  ghost predicate Window(sel: seq<seq<Packet>>, latestFirst: nat, earliestLast: nat)
    requires Selectable(sel)
  {
    && (forall i :: 0 <= i < |sel| ==> sel[i][0].cts <= latestFirst && earliestLast <= MaxCts(sel[i]))
    && (exists i :: 0 <= i < |sel| && sel[i][0].cts == latestFirst)
    && (exists i :: 0 <= i < |sel| && MaxCts(sel[i]) == earliestLast)
  }

  ghost predicate KeyInAll(sel: seq<seq<Packet>>, c: nat) {
    forall i :: 0 <= i < |sel| ==> KeyframeAt(sel[i], c)
  }

  ghost predicate HeldByAll(sel: seq<seq<Packet>>, c: nat) {
    forall i :: 0 <= i < |sel| ==> HasCts(sel[i], c)
  }

  /** The greatest common keyframe at or before `target`, otherwise the least one in the window. */
  ghost predicate BestStart(sel: seq<seq<Packet>>, latestFirst: nat, earliestLast: nat, target: nat, start: nat) {
    && latestFirst <= start <= earliestLast && KeyInAll(sel, start)
    && (start <= target ==> forall c :: start < c <= target ==> !KeyInAll(sel, c))
    && (start > target ==> forall c :: latestFirst <= c < start ==> !KeyInAll(sel, c))
  }

  /** The end of the unbroken run of the first history that all histories share. */
  ghost predicate RunEnd(sel: seq<seq<Packet>>, start: nat, earliestLast: nat, end: nat)
    requires |sel| > 0
  {
    && start <= end <= earliestLast && HeldByAll(sel, end)
    && (forall q :: q in sel[0] && start <= q.cts <= end ==> HeldByAll(sel, q.cts))
    && (forall q :: q in sel[0] && end < q.cts <= earliestLast ==>
          exists r :: r in sel[0] && end < r.cts <= q.cts && !HeldByAll(sel, r.cts))
  }

  datatype Rejection =
    | RetentionDisabled | NoReplayStreams | InvalidDuration | InsufficientHistory | NoCommonKeyframe | NoCommonRange

  datatype Attempt = Taken(start: nat, end: nat, slices: seq<seq<Packet>>) | Rejected(reason: Rejection)

  // ---- the selection as the program runs it

  method FindWindow(sel: seq<seq<Packet>>) returns (latestFirst: nat, earliestLast: nat)
    requires Selectable(sel)
    ensures Window(sel, latestFirst, earliestLast)
  {
    latestFirst, earliestLast := sel[0][0].cts, sel[0][|sel[0]| - 1].cts;
    for i := 1 to |sel|
      invariant forall j :: 0 <= j < i ==> sel[j][0].cts <= latestFirst && earliestLast <= MaxCts(sel[j])
      invariant exists j :: 0 <= j < i && sel[j][0].cts == latestFirst
      invariant exists j :: 0 <= j < i && MaxCts(sel[j]) == earliestLast
    {
      var first, last := sel[i][0].cts, sel[i][|sel[i]| - 1].cts;
      latestFirst := if first > latestFirst then first else latestFirst;
      earliestLast := if last < earliestLast then last else earliestLast;
    }
  }

  method FindIn(s: seq<Packet>, c: nat) returns (found: Option<Packet>)
    requires Sorted(s)
    ensures found.Some? <==> HasCts(s, c)
    ensures found.Some? ==> found.value in s && found.value.cts == c
    ensures KeyframeAt(s, c) <==> found.Some? && found.value.keyframe
  {
    for i := 0 to |s|
      invariant forall q :: q in s[..i] ==> q.cts != c
    {
      if s[i].cts == c {
        assert forall q :: q in s && q.cts == c ==> q == s[i];
        return Some(s[i]);
      }
    }
    return None;
  }

  method ContainsAll(sel: seq<seq<Packet>>, c: nat) returns (all: bool)
    requires Selectable(sel)
    ensures all <==> HeldByAll(sel, c)
  {
    for i := 0 to |sel|
      invariant forall j :: 0 <= j < i ==> HasCts(sel[j], c)
    {
      var found := FindIn(sel[i], c);
      if found.None? {
        return false;
      }
    }
    return true;
  }

  method AllKeyframes(sel: seq<seq<Packet>>, c: nat) returns (all: bool)
    requires Selectable(sel)
    ensures all <==> KeyInAll(sel, c)
  {
    for i := 0 to |sel|
      invariant forall j :: 0 <= j < i ==> KeyframeAt(sel[j], c)
    {
      var found := FindIn(sel[i], c);
      if found.None? || !found.value.keyframe {
        return false;
      }
    }
    return true;
  }

  lemma KeysAreInFirst(sel: seq<seq<Packet>>, c: nat)
    requires Selectable(sel) && KeyInAll(sel, c)
    ensures exists q :: q in sel[0] && q.cts == c
  {
    assert KeyframeAt(sel[0], c);
  }

  /** No common keyframe among the packets scanned so far beats the candidate. */
  ghost predicate ScannedLast(sel: seq<seq<Packet>>, i: nat, lo: nat, hi: nat, candidate: Option<nat>)
    requires |sel| > 0 && i <= |sel[0]|
  {
    match candidate
    case None => forall q :: q in sel[0][..i] && lo <= q.cts <= hi ==> !KeyInAll(sel, q.cts)
    case Some(c) =>
      && lo <= c <= hi && KeyInAll(sel, c)
      && forall q :: q in sel[0][..i] && c < q.cts <= hi ==> !KeyInAll(sel, q.cts)
  }

  /** The last common keyframe of the first history in [lo, hi]. */
  method LastCommonKey(sel: seq<seq<Packet>>, lo: nat, earliestLast: nat, target: nat) returns (start: Option<nat>)
    requires Selectable(sel) && target <= earliestLast
    ensures start.None? ==> forall c :: lo <= c <= target ==> !KeyInAll(sel, c)
    ensures start.Some? ==> lo <= start.value <= target && KeyInAll(sel, start.value)
    ensures start.Some? ==> forall c :: start.value < c <= target ==> !KeyInAll(sel, c)
  {
    hide KeyInAll;
    start := None;
    for i := 0 to |sel[0]|
      invariant ScannedLast(sel, i, lo, target, start)
    {
      assert sel[0][..i + 1] == sel[0][..i] + [sel[0][i]];
      var c := sel[0][i].cts;
      assert forall q :: q in sel[0][..i] ==> q.cts < c;
      var usable := false;
      if lo <= c <= earliestLast {
        usable := AllKeyframes(sel, c);
      }
      if usable && c <= target {
        start := Some(c);
      }
    }
    assert sel[0][..|sel[0]|] == sel[0];
    forall c | lo <= c <= target && KeyInAll(sel, c) ensures start.Some? && c <= start.value {
      KeysAreInFirst(sel, c);
    }
  }

  lemma NoneEarlier(sel: seq<seq<Packet>>, i: nat, lo: nat, hi: nat)
    requires Selectable(sel) && i < |sel[0]| && sel[0][i].cts <= hi
    requires forall q :: q in sel[0][..i] && lo <= q.cts <= hi ==> !KeyInAll(sel, q.cts)
    ensures forall c :: lo <= c < sel[0][i].cts ==> !KeyInAll(sel, c)
  {
    hide KeyInAll;
    forall c | lo <= c < sel[0][i].cts && HasCts(sel[0], c) ensures !KeyInAll(sel, c) {
      EarlierInPrefix(sel[0], i, c);
    }
    forall c | lo <= c < sel[0][i].cts && KeyInAll(sel, c) ensures HasCts(sel[0], c) {
      KeysAreInFirst(sel, c);
    }
  }

  method FirstCommonKey(sel: seq<seq<Packet>>, lo: nat, hi: nat) returns (start: Option<nat>)
    requires Selectable(sel)
    ensures start.None? ==> forall c :: lo <= c <= hi ==> !KeyInAll(sel, c)
    ensures start.Some? ==> lo <= start.value <= hi && KeyInAll(sel, start.value)
    ensures start.Some? ==> forall c :: lo <= c < start.value ==> !KeyInAll(sel, c)
  {
    hide KeyInAll;
    for i := 0 to |sel[0]|
      invariant forall q :: q in sel[0][..i] && lo <= q.cts <= hi ==> !KeyInAll(sel, q.cts)
    {
      assert sel[0][..i + 1] == sel[0][..i] + [sel[0][i]];
      var c := sel[0][i].cts;
      if lo <= c <= hi {
        var usable := AllKeyframes(sel, c);
        if usable {
          NoneEarlier(sel, i, lo, hi);
          return Some(c);
        }
      }
    }
    assert sel[0][..|sel[0]|] == sel[0];
    forall c | lo <= c <= hi ensures !KeyInAll(sel, c) {
      if KeyInAll(sel, c) {
        KeysAreInFirst(sel, c);
      }
    }
    return None;
  }

  lemma EarlierInPrefix(s: seq<Packet>, i: nat, d: nat)
    requires Sorted(s) && i < |s| && d < s[i].cts && HasCts(s, d)
    ensures exists q :: q in s[..i] && q.cts == d
  {
    var q :| q in s && q.cts == d;
    var j :| 0 <= j < |s| && s[j] == q;
    assert s[..i][j] == q;
  }

  /** The walk along the first history from the start. */
  method WalkEnd(sel: seq<seq<Packet>>, start: nat, earliestLast: nat) returns (end: nat)
    requires Selectable(sel) && start <= earliestLast && HeldByAll(sel, start)
    ensures RunEnd(sel, start, earliestLast, end)
  {
    hide HeldByAll;
    end := start;
    var s := sel[0];
    for i := 0 to |s|
      invariant start <= end <= earliestLast && HeldByAll(sel, end)
      invariant forall q :: q in s[..i] && start <= q.cts <= earliestLast ==> q.cts <= end && HeldByAll(sel, q.cts)
      invariant end == start || exists q :: q in s[..i] && q.cts == end
    {
      assert s[..i + 1] == s[..i] + [s[i]];
      var c := s[i].cts;
      if start <= c <= earliestLast {
        var held := ContainsAll(sel, c);
        if !held {
          BrokenRun(sel, start, earliestLast, end, i);
          return;
        }
        assert forall q :: q in s[..i] ==> q.cts < c;
        end := c;
      }
    }
    assert s[..|s|] == s;
  }

  lemma BrokenRun(sel: seq<seq<Packet>>, start: nat, earliestLast: nat, end: nat, i: nat)
    requires Selectable(sel) && i < |sel[0]| && start <= end <= earliestLast && HeldByAll(sel, end)
    requires forall q :: q in sel[0][..i] && start <= q.cts <= earliestLast ==> q.cts <= end && HeldByAll(sel, q.cts)
    requires end == start || exists q :: q in sel[0][..i] && q.cts == end
    requires start <= sel[0][i].cts <= earliestLast && !HeldByAll(sel, sel[0][i].cts)
    ensures RunEnd(sel, start, earliestLast, end)
  {
    hide HeldByAll;
    var s, c := sel[0], sel[0][i].cts;
    assert end < c by {
      if end != start {
        var q :| q in s[..i] && q.cts == end;
      }
    }
    forall q | q in s && q.cts < c ensures q in s[..i] {
      EarlierInPrefix(s, i, q.cts);
      var r :| r in s[..i] && r.cts == q.cts;
      assert r == q;
    }
    assert s[i] in s;
  }

  method Slices(sel: seq<seq<Packet>>, start: nat, end: nat) returns (slices: seq<seq<Packet>>)
    requires Selectable(sel)
    ensures |slices| == |sel| && forall i :: 0 <= i < |sel| ==> slices[i] == Between(sel[i], start, end)
  {
    hide Between, From, UpTo;
    slices := [];
    for i := 0 to |sel|
      invariant |slices| == i && forall j :: 0 <= j < i ==> slices[j] == Between(sel[j], start, end)
    {
      var slice := Slice(sel[i], start, end);
      slices := slices + [slice];
    }
  }

  method Slice(s: seq<Packet>, start: nat, end: nat) returns (slice: seq<Packet>)
    requires Sorted(s)
    ensures slice == Between(s, start, end)
  {
    hide From, UpTo;
    slice := [];
    assert From([], start) == [] && UpTo([], end) == [] by { FromNone([], start); UpToNone([], end); }
    for i := 0 to |s|
      invariant slice == Between(s[..i], start, end)
    {
      assert s[..i + 1] == s[..i] + [s[i]];
      FromSnoc(s[..i], s[i], start);
      UpToSnoc(From(s[..i], start), s[i], end);
      if start <= s[i].cts && s[i].cts <= end {
        slice := slice + [s[i]];
      }
    }
    assert s[..|s|] == s;
  }

  /** A save is taken with the best start and the shared run behind it; it is rejected for want of history or of
      a common keyframe, and for nothing else. */
  ghost predicate Correct(sel: seq<seq<Packet>>, duration: nat, attempt: Attempt)
    requires Selectable(sel)
  {
    forall latestFirst: nat, earliestLast: nat :: Window(sel, latestFirst, earliestLast) ==>
      if latestFirst + duration > earliestLast then attempt == Rejected(InsufficientHistory)
      else
        match attempt
        case Rejected(reason) =>
          reason == NoCommonKeyframe && forall c :: latestFirst <= c <= earliestLast ==> !KeyInAll(sel, c)
        case Taken(start, end, slices) =>
          && BestStart(sel, latestFirst, earliestLast, earliestLast - duration, start)
          && RunEnd(sel, start, earliestLast, end)
          && |slices| == |sel| && forall i :: 0 <= i < |sel| ==> slices[i] == Between(sel[i], start, end)
  }

  ghost function LatestFirst(sel: seq<seq<Packet>>): nat
    requires Selectable(sel)
  {
    var n := |sel| - 1;
    if n == 0 || sel[n][0].cts > LatestFirst(sel[..n]) then sel[n][0].cts else LatestFirst(sel[..n])
  }

  ghost function EarliestLast(sel: seq<seq<Packet>>): nat
    requires Selectable(sel)
  {
    var n := |sel| - 1;
    if n == 0 || MaxCts(sel[n]) < EarliestLast(sel[..n]) then MaxCts(sel[n]) else EarliestLast(sel[..n])
  }

  lemma {:induction false} WindowExists(sel: seq<seq<Packet>>)
    requires Selectable(sel)
    ensures Window(sel, LatestFirst(sel), EarliestLast(sel))
  {
    hide Sorted;
    var n := |sel| - 1;
    if n > 0 {
      var init := sel[..n];
      WindowExists(init);
      var i :| 0 <= i < n && init[i][0].cts == LatestFirst(init);
      var j :| 0 <= j < n && MaxCts(init[j]) == EarliestLast(init);
      assert sel[i] == init[i] && sel[j] == init[j];
      forall k | 0 <= k < n
        ensures sel[k][0].cts <= LatestFirst(sel) && EarliestLast(sel) <= MaxCts(sel[k])
      {
        assert sel[k] == init[k];
      }
    }
  }

  /** Why a selection cannot be saved: the histories overlap too little, or hold no common keyframe there. */
  ghost function Refusal(sel: seq<seq<Packet>>, duration: nat): Option<Rejection>
    requires Selectable(sel)
  {
    if LatestFirst(sel) + duration > EarliestLast(sel) then Some(InsufficientHistory)
    else if forall c :: LatestFirst(sel) <= c <= EarliestLast(sel) ==> !KeyInAll(sel, c) then Some(NoCommonKeyframe)
    else None
  }

  /** An attempt is turned down exactly if there is such a reason. */
  lemma RefusedExactly(sel: seq<seq<Packet>>, duration: nat, attempt: Attempt)
    requires Selectable(sel) && Correct(sel, duration, attempt)
    ensures Refusal(sel, duration) == if attempt.Rejected? then Some(attempt.reason) else None
  {
    hide Window, RunEnd, Sorted, KeyInAll, LatestFirst, EarliestLast;
    WindowExists(sel);
    assert attempt.Taken? && LatestFirst(sel) + duration <= EarliestLast(sel) ==>
             BestStart(sel, LatestFirst(sel), EarliestLast(sel), EarliestLast(sel) - duration, attempt.start);
  }

  lemma WindowUnique(sel: seq<seq<Packet>>, a: nat, b: nat, c: nat, d: nat)
    requires Selectable(sel) && Window(sel, a, b) && Window(sel, c, d)
    ensures a == c && b == d
  {
  }

  method SelectRange(sel: seq<seq<Packet>>, duration: nat) returns (attempt: Attempt)
    requires Selectable(sel) && duration > 0
    ensures Correct(sel, duration, attempt)
  {
    hide KeyInAll, RunEnd, Between;
    var latestFirst, earliestLast := FindWindow(sel);
    forall a, b | Window(sel, a, b) ensures a == latestFirst && b == earliestLast {
      WindowUnique(sel, a, b, latestFirst, earliestLast);
    }
    hide Window;
    if latestFirst > earliestLast || earliestLast - latestFirst < duration {
      return Rejected(InsufficientHistory);
    }
    var target := if earliestLast > duration then earliestLast - duration else latestFirst;
    assert target == earliestLast - duration && latestFirst <= target;
    var start := LastCommonKey(sel, latestFirst, earliestLast, target);
    if start.None? {
      start := FirstCommonKey(sel, latestFirst, earliestLast);
    }
    if start.None? {
      return Rejected(NoCommonKeyframe);
    }
    KeysAreHeld(sel, start.value);
    var end := WalkEnd(sel, start.value, earliestLast);
    EndNotBeforeStart(sel, start.value, earliestLast, end);
    if end < start.value {
      return Rejected(NoCommonRange);
    }
    var slices := Slices(sel, start.value, end);
    return Taken(start.value, end, slices);
  }

  lemma EndNotBeforeStart(sel: seq<seq<Packet>>, start: nat, earliestLast: nat, end: nat)
    requires |sel| > 0 && RunEnd(sel, start, earliestLast, end)
    ensures start <= end
  {
  }

  lemma KeysAreHeld(sel: seq<seq<Packet>>, c: nat)
    requires KeyInAll(sel, c)
    ensures HeldByAll(sel, c)
  {
    forall i | 0 <= i < |sel| ensures HasCts(sel[i], c) {
      assert KeyframeAt(sel[i], c);
    }
  }

  // ---- what a taken snapshot guarantees

  lemma SliceEnds(s: seq<Packet>, start: nat, end: nat)
    requires Sorted(s) && start <= end && HasCts(s, start) && HasCts(s, end)
    ensures var slice := Between(s, start, end);
            && slice != [] && slice[0].cts == start && MaxCts(slice) == end
            && (KeyframeAt(s, start) ==> slice[0].keyframe)
  {
    hide From, UpTo, Between;
    var slice := Between(s, start, end);
    BetweenMembers(s, start, end);
    var p :| p in s && p.cts == start;
    var q :| q in s && q.cts == end;
    assert p in slice && q in slice;
    var i :| 0 <= i < |slice| && slice[i] == p;
    var j :| 0 <= j < |slice| && slice[j] == q;
    assert slice[0] in slice && slice[|slice| - 1] in slice;
    if KeyframeAt(s, start) {
      var k :| k in s && k.cts == start && k.keyframe;
      assert k in slice;
      var m :| 0 <= m < |slice| && slice[m] == k;
    }
  }

  /** The boundary theorem: every slice begins with a keyframe at the start and ends exactly at the end, and the
      first slice's CTS values are in all of them. */
  lemma Boundaries(sel: seq<seq<Packet>>, duration: nat, attempt: Attempt, latestFirst: nat, earliestLast: nat)
    requires Selectable(sel) && duration > 0 && Correct(sel, duration, attempt) && attempt.Taken?
    requires Window(sel, latestFirst, earliestLast)
    ensures latestFirst <= attempt.start <= attempt.end <= earliestLast && |attempt.slices| == |sel|
    ensures forall i :: 0 <= i < |sel| ==>
              && attempt.slices[i] != [] && Sorted(attempt.slices[i])
              && attempt.slices[i][0].cts == attempt.start && attempt.slices[i][0].keyframe
              && MaxCts(attempt.slices[i]) == attempt.end
    ensures forall i, c: nat :: 0 <= i < |sel| && HasCts(attempt.slices[0], c) ==> HasCts(attempt.slices[i], c)
  {
    hide From, UpTo, Between;
    var start, end := attempt.start, attempt.end;
    KeysAreHeld(sel, start);
    forall i | 0 <= i < |sel|
      ensures && attempt.slices[i] != [] && Sorted(attempt.slices[i])
              && attempt.slices[i][0].cts == start && attempt.slices[i][0].keyframe
              && MaxCts(attempt.slices[i]) == end
    {
      assert KeyframeAt(sel[i], start) && HasCts(sel[i], start) && HasCts(sel[i], end);
      SliceEnds(sel[i], start, end);
      BetweenMembers(sel[i], start, end);
    }
    forall i, c: nat | 0 <= i < |sel| && HasCts(attempt.slices[0], c) ensures HasCts(attempt.slices[i], c) {
      BetweenMembers(sel[0], start, end);
      BetweenMembers(sel[i], start, end);
      assert HeldByAll(sel, c);
    }
  }

  /** A start at or before the target covers at least the requested duration of the window. */
  lemma Covers(sel: seq<seq<Packet>>, duration: nat, attempt: Attempt, latestFirst: nat, earliestLast: nat)
    requires Selectable(sel) && duration > 0 && Correct(sel, duration, attempt) && attempt.Taken?
    requires Window(sel, latestFirst, earliestLast)
    ensures (exists c :: latestFirst <= c && c + duration <= earliestLast && KeyInAll(sel, c)) <==>
            attempt.start + duration <= earliestLast
  {
    hide KeyInAll, RunEnd;
  }

  /** The CTS values a history holds inside the window are those of the first history. */
  ghost predicate SameWithin(sel: seq<seq<Packet>>, lo: nat, hi: nat)
    requires |sel| > 0
  {
    forall i, c: nat :: 0 <= i < |sel| && lo <= c <= hi ==> (HasCts(sel[i], c) <==> HasCts(sel[0], c))
  }

  lemma HasCtsSnoc(s: seq<Packet>, init: seq<Packet>, last: nat)
    requires Sorted(s) && s != [] && init == s[..|s| - 1] && last == MaxCts(s)
    ensures forall c: nat :: HasCts(s, c) <==> HasCts(init, c) || c == last
    ensures forall c: nat :: HasCts(init, c) ==> c < last
    ensures CtsOf(s) == CtsOf(init) + [last] && Sorted(init)
  {
    Snoc(s);
    SortedInit(s);
  }

  /** Lists with the same CTS values in CTS order have one CTS list. */
  lemma {:induction false} SameMembersSameCts(x: seq<Packet>, y: seq<Packet>)
    requires Sorted(x) && Sorted(y) && forall c: nat :: HasCts(x, c) <==> HasCts(y, c)
    ensures CtsOf(x) == CtsOf(y)
    decreases |x|
  {
    if x == [] || y == [] {
      assert x != [] ==> HasCts(x, x[0].cts);
      assert y != [] ==> HasCts(y, y[0].cts);
    } else {
      var x', m, y', n := x[..|x| - 1], MaxCts(x), y[..|y| - 1], MaxCts(y);
      HasCtsSnoc(x, x', m);
      HasCtsSnoc(y, y', n);
      hide HasCts, Sorted, CtsOf, MaxCts;
      assert HasCts(x, m) && HasCts(y, n);
      assert m == n;
      SameMembersSameCts(x', y');
    }
  }

  /** All slices have one CTS list exactly if no other history holds a CTS of the range that the first one lacks. */
  lemma EqualSlicesExactly(sel: seq<seq<Packet>>, duration: nat, attempt: Attempt, latestFirst: nat, earliestLast: nat)
    requires Selectable(sel) && duration > 0 && Correct(sel, duration, attempt) && attempt.Taken?
    requires Window(sel, latestFirst, earliestLast)
    ensures (forall i :: 0 <= i < |sel| ==> CtsOf(attempt.slices[i]) == CtsOf(attempt.slices[0])) <==>
            SameWithin(sel, attempt.start, attempt.end)
  {
    hide From, UpTo, Between, Correct, Window;
    Boundaries(sel, duration, attempt, latestFirst, earliestLast);
    SlicesAre(sel, duration, attempt, latestFirst, earliestLast);
    var start, end, slices := attempt.start, attempt.end, attempt.slices;
    forall i, c: nat | 0 <= i < |sel| ensures HasCts(slices[i], c) <==> HasCts(sel[i], c) && start <= c <= end {
      BetweenMembers(sel[i], start, end);
    }
    if SameWithin(sel, start, end) {
      forall i | 0 <= i < |sel| ensures CtsOf(slices[i]) == CtsOf(slices[0]) {
        SameMembersSameCts(slices[i], slices[0]);
      }
    } else if forall i :: 0 <= i < |sel| ==> CtsOf(slices[i]) == CtsOf(slices[0]) {
      forall i, c: nat | 0 <= i < |sel| && start <= c <= end ensures HasCts(sel[i], c) <==> HasCts(sel[0], c) {
        SameCtsSameMembers(slices[i], slices[0], c);
      }
    }
  }

  lemma SlicesAre(sel: seq<seq<Packet>>, duration: nat, attempt: Attempt, latestFirst: nat, earliestLast: nat)
    requires Selectable(sel) && Correct(sel, duration, attempt) && attempt.Taken?
    requires Window(sel, latestFirst, earliestLast)
    ensures |attempt.slices| == |sel|
    ensures forall i :: 0 <= i < |sel| ==> attempt.slices[i] == Between(sel[i], attempt.start, attempt.end)
  {
    hide Between;
  }

  lemma SameCtsSameMembers(x: seq<Packet>, y: seq<Packet>, c: nat)
    requires CtsOf(x) == CtsOf(y)
    ensures HasCts(x, c) <==> HasCts(y, c)
  {
    if q :| q in x && q.cts == c {
      var i :| 0 <= i < |x| && x[i] == q;
      assert CtsOf(y)[i] == c && y[i] in y;
    }
    if q :| q in y && q.cts == c {
      var i :| 0 <= i < |y| && y[i] == q;
      assert CtsOf(x)[i] == c && x[i] in x;
    }
  }

  lemma RunsToEnd(sel: seq<seq<Packet>>, start: nat, end: nat, latestFirst: nat, earliestLast: nat)
    requires Selectable(sel) && Window(sel, latestFirst, earliestLast) && latestFirst <= start
    requires RunEnd(sel, start, earliestLast, end)
    requires forall c: nat :: latestFirst <= c <= earliestLast && HasCts(sel[0], c) ==> HeldByAll(sel, c)
    requires HasCts(sel[0], earliestLast)
    ensures end == earliestLast
  {
    hide HeldByAll, Window;
    var q :| q in sel[0] && q.cts == earliestLast;
  }

  lemma HeldEverywhere(sel: seq<seq<Packet>>, latestFirst: nat, earliestLast: nat)
    requires Selectable(sel) && Window(sel, latestFirst, earliestLast) && latestFirst <= earliestLast
    requires SameWithin(sel, latestFirst, earliestLast)
    ensures forall c: nat :: latestFirst <= c <= earliestLast && HasCts(sel[0], c) ==> HeldByAll(sel, c)
    ensures HasCts(sel[0], earliestLast)
  {
    hide Sorted;
    var j :| 0 <= j < |sel| && MaxCts(sel[j]) == earliestLast;
    assert sel[j] != [] && sel[j][|sel[j]| - 1] in sel[j];
    hide Selectable, Window;
    assert HasCts(sel[j], earliestLast);
    hide HasCts;
  }

  /** If the histories agree over the whole window, the save runs to the end of the window. */
  lemma AgreementRunsToEnd(sel: seq<seq<Packet>>, duration: nat, attempt: Attempt, latestFirst: nat, earliestLast: nat)
    requires Selectable(sel) && duration > 0 && Correct(sel, duration, attempt) && attempt.Taken?
    requires Window(sel, latestFirst, earliestLast) && SameWithin(sel, latestFirst, earliestLast)
    ensures attempt.end == earliestLast
    ensures forall i :: 0 <= i < |sel| ==> CtsOf(attempt.slices[i]) == CtsOf(attempt.slices[0])
  {
    Boundaries(sel, duration, attempt, latestFirst, earliestLast);
    TakenRun(sel, duration, attempt, latestFirst, earliestLast);
    NarrowerAgreement(sel, latestFirst, earliestLast, attempt.start, attempt.end);
    hide From, UpTo, Between, Correct, Window, Selectable, RunEnd, SameWithin, HasCts, HeldByAll;
    EqualSlicesExactly(sel, duration, attempt, latestFirst, earliestLast);
    HeldEverywhere(sel, latestFirst, earliestLast);
    RunsToEnd(sel, attempt.start, attempt.end, latestFirst, earliestLast);
  }

  lemma NarrowerAgreement(sel: seq<seq<Packet>>, lo: nat, hi: nat, lo': nat, hi': nat)
    requires |sel| > 0 && SameWithin(sel, lo, hi) && lo <= lo' && hi' <= hi
    ensures SameWithin(sel, lo', hi')
  {
    hide HasCts;
  }

  lemma TakenRun(sel: seq<seq<Packet>>, duration: nat, attempt: Attempt, latestFirst: nat, earliestLast: nat)
    requires Selectable(sel) && Correct(sel, duration, attempt) && attempt.Taken?
    requires Window(sel, latestFirst, earliestLast)
    ensures BestStart(sel, latestFirst, earliestLast, earliestLast - duration, attempt.start)
    ensures RunEnd(sel, attempt.start, earliestLast, attempt.end)
  {
    hide Between, BestStart, RunEnd, Window, Selectable;
  }

  function Frame(cts: nat, keyframe: bool): Packet {
    Packet(cts, cts, cts, 1, 1, keyframe, 1)
  }

  const PLAIN: seq<Packet> := [Frame(0, true), Frame(20, false)]
  const EXTRA: seq<Packet> := [Frame(0, true), Frame(10, false), Frame(20, false)]

  lemma FrameLists()
    ensures forall q :: q in PLAIN <==> q == Frame(0, true) || q == Frame(20, false)
    ensures forall q :: q in EXTRA <==> q == Frame(0, true) || q == Frame(10, false) || q == Frame(20, false)
    ensures Sorted(PLAIN) && Sorted(EXTRA) && MaxCts(PLAIN) == 20 && MaxCts(EXTRA) == 20
    ensures PLAIN[0] == EXTRA[0] == Frame(0, true)
  {
    assert PLAIN[0] in PLAIN && PLAIN[1] in PLAIN && EXTRA[0] in EXTRA && EXTRA[1] in EXTRA && EXTRA[2] in EXTRA;
  }

  lemma FrameFacts()
    ensures Selectable([PLAIN, EXTRA]) && Window([PLAIN, EXTRA], 0, 20)
    ensures KeyInAll([PLAIN, EXTRA], 0) && HeldByAll([PLAIN, EXTRA], 20) && !SameWithin([PLAIN, EXTRA], 0, 20)
    ensures forall q :: q in PLAIN ==> q.cts == 0 || q.cts == 20
    ensures PLAIN != [] && PLAIN[|PLAIN| - 1].cts == 20
  {
    var sel: seq<seq<Packet>> := [PLAIN, EXTRA];
    FrameLists();
    assert KeyframeAt(PLAIN, 0) && KeyframeAt(EXTRA, 0);
    assert HasCts(EXTRA, 10) && !HasCts(PLAIN, 10) && HasCts(PLAIN, 20) && HasCts(EXTRA, 20);
    assert HasCts(sel[1], 10) && !HasCts(sel[0], 10);
  }

  /** A second stream with an extra frame inside the range: the save is taken with slices of different length. */
  lemma ExtraFrameIsSaved(attempt: Attempt)
    requires Selectable([PLAIN, EXTRA]) && Correct([PLAIN, EXTRA], 20, attempt)
    ensures attempt.Taken? && |attempt.slices| == 2 && CtsOf(attempt.slices[0]) != CtsOf(attempt.slices[1])
  {
    FrameFacts();
    hide From, UpTo, Between, Selectable, Window, KeyInAll, HeldByAll, KeyframeAt, HasCts, CtsOf, Sorted, Frame,
         SameWithin, RunEnd, MaxCts, BestStart;
    var sel: seq<seq<Packet>> := [PLAIN, EXTRA];
    assert attempt.Taken?;
    TakenRun(sel, 20, attempt, 0, 20);
    WholeRun(sel, attempt.start, attempt.end);
    hide Correct;
    Boundaries(sel, 20, attempt, 0, 20);
    EqualSlicesExactly(sel, 20, attempt, 0, 20);
  }

  lemma WholeRun(sel: seq<seq<Packet>>, start: nat, end: nat)
    requires sel == [PLAIN, EXTRA] && BestStart(sel, 0, 20, 0, start) && RunEnd(sel, start, 20, end)
    ensures start == 0 && end == 20
  {
    FrameFacts();
    hide KeyInAll, HeldByAll, Frame, Window, Selectable, SameWithin;
    var q := PLAIN[|PLAIN| - 1];
    assert q in sel[0];
  }
}
