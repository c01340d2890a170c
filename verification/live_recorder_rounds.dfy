/** What one flush of the live recorder writes, in closed form: its rounds are the CTS values all streams share, and
    each file takes its packets of them in order. */
module LiveRecorderRounds {
  import opened Packets
  import opened MkvWriter
  import opened LiveRecorderModel
  import opened LiveRecorderSchedule
  import opened LiveRecorderOutcome
  import opened LiveRecorderMeaning

  // ---- the rounds

  ghost function Without(pending: seq<map<nat, Packet>>, c: nat): (r: seq<map<nat, Packet>>)
    ensures |r| == |pending| && forall i :: 0 <= i < |r| ==> r[i] == pending[i] - {c}
  {
    seq(|pending|, i requires 0 <= i < |pending| => pending[i] - {c})
  }

  lemma WithoutShrinks(pending: seq<map<nat, Packet>>)
    requires NextRound(pending).Some?
    ensures var c := NextRound(pending).value;
            && c in pending[0] && InAll(pending, c)
            && Backlog(Without(pending, c)) < Backlog(pending)
  {
    var c := NextRound(pending).value;
    assert Without(pending, c)[0].Keys == pending[0].Keys - {c};
  }

  /** The CTS values of all rounds, in the order in which they are written. */
  ghost function Rounds(pending: seq<map<nat, Packet>>): seq<nat>
    decreases Backlog(pending)
  {
    match NextRound(pending)
    case None => []
    case Some(c) =>
      WithoutShrinks(pending);
      [c] + Rounds(Without(pending, c))
  }

  /** Stream 0 has the CTS, and all streams have it and every earlier one of stream 0. */
  ghost predicate Shared(m: seq<map<nat, Packet>>, c: nat) {
    && |m| > 0 && c in m[0]
    && forall k :: k in m[0] && k <= c ==> InAll(m, k)
  }

  ghost predicate Increasing(list: seq<nat>) {
    forall i, j :: 0 <= i < j < |list| ==> list[i] < list[j]
  }

  lemma SharedNext(m: seq<map<nat, Packet>>, c: nat, k: nat)
    requires NextRound(m) == Some(c)
    ensures Shared(m, k) <==> k == c || Shared(Without(m, c), k)
  {
    var n := Without(m, c);
    assert c in m[0] && InAll(m, c);
    assert forall x :: x in n[0] <==> x in m[0] && x != c;
    forall x: nat | x != c ensures InAll(n, x) <==> InAll(m, x) {
      if InAll(m, x) {
        assert forall i :: 0 <= i < |m| ==> x in m[i] && x in n[i];
      }
      if InAll(n, x) {
        assert forall i :: 0 <= i < |m| ==> x in n[i] && x in m[i];
      }
    }
    hide InAll;
  }

  /** The rounds are exactly the shared CTS values, in increasing order. */
  lemma {:induction false} RoundsAreShared(pending: seq<map<nat, Packet>>)
    ensures Increasing(Rounds(pending))
    ensures forall c :: c in Rounds(pending) <==> Shared(pending, c)
    ensures forall c :: c in Rounds(pending) ==> InAll(pending, c)
    decreases Backlog(pending)
  {
    if NextRound(pending).Some? {
      var c := NextRound(pending).value;
      WithoutShrinks(pending);
      var rest := Without(pending, c);
      RoundsAreShared(rest);
      hide InAll, NextRound, Rounds;
      assert Rounds(pending) == [c] + Rounds(rest) by { RoundsUnfold(pending, c); }
      forall k ensures k in Rounds(pending) <==> Shared(pending, k) {
        SharedNext(pending, c, k);
      }
      forall k | k in Rounds(rest) ensures c < k {
        LaterRound(pending, c, k);
      }
      IncreasingFront(c, Rounds(rest));
      forall k | k in Rounds(pending) ensures InAll(pending, k) {
        assert Shared(pending, k);
      }
    } else {
      NoRounds(pending);
    }
  }

  lemma IncreasingFront(c: nat, list: seq<nat>)
    requires Increasing(list) && forall k :: k in list ==> c < k
    ensures Increasing([c] + list)
  {
    var l := [c] + list;
    forall i, j | 0 <= i < j < |l| ensures l[i] < l[j] {
      assert l[j] == list[j - 1] && list[j - 1] in list;
    }
  }

  lemma RoundsUnfold(pending: seq<map<nat, Packet>>, c: nat)
    requires NextRound(pending) == Some(c)
    ensures Rounds(pending) == [c] + Rounds(Without(pending, c))
  {
    WithoutShrinks(pending);
  }

  lemma LaterRound(pending: seq<map<nat, Packet>>, c: nat, k: nat)
    requires NextRound(pending) == Some(c) && Shared(Without(pending, c), k)
    ensures c < k
  {
    assert k in Without(pending, c)[0] && k in pending[0].Keys;
  }

  lemma NoRounds(pending: seq<map<nat, Packet>>)
    requires NextRound(pending).None?
    ensures Rounds(pending) == [] && forall c :: !Shared(pending, c)
  {
  }

  // ---- writing them

  /** What one stream writes. */
  ghost function Outputs(m: map<nat, Packet>, list: seq<nat>, start: nat, origin: int): (r: seq<Packet>)
    requires forall c :: c in list ==> c in m
    ensures |r| == |list| && forall i :: 0 <= i < |r| ==> r[i] == Output(m[list[i]], start, origin)
  {
    seq(|list|, i requires 0 <= i < |list| => Output(m[list[i]], start, origin))
  }

  lemma OutputsFront(m: map<nat, Packet>, c: nat, list: seq<nat>, start: nat, origin: int)
    requires c in m && c !in list && forall k :: k in list ==> k in m
    ensures forall k :: k in [c] + list ==> k in m
    ensures Outputs(m, [c] + list, start, origin) ==
            [Output(m[c], start, origin)] + Outputs(m - {c}, list, start, origin)
  {
    hide Output;
  }

  lemma {:induction false} WrittenFront(w: Writer, p: Packet, rest: seq<Packet>)
    ensures WrittenAll(w, [p] + rest) ==
            if Written(w, p).1 then WrittenAll(Written(w, p).0, rest) else (Written(w, p).0, false)
  {
    hide Written;
    if rest == [] {
      assert ([p] + rest)[..0] == [] && [p] + rest == [p];
      assert WrittenAll(w, []) == (w, true);
    } else {
      var n := |rest| - 1;
      assert ([p] + rest)[..n + 1] == [p] + rest[..n];
      WrittenFront(w, p, rest[..n]);
    }
  }

  /** One round succeeds exactly if every file takes its packet. */
  lemma {:induction false} RoundExactly(s: Core, c: nat, i: nat)
    requires s.Shaped() && i <= |s.pending| && s.error.None?
    requires forall j :: i <= j < |s.pending| ==> c in s.pending[j]
    ensures var t := RoundFrom(s, c, i);
            && t.error == (if forall j :: i <= j < |s.pending| ==>
                                Written(s.writers[j], Output(s.pending[j][c], s.start, s.origins[j])).1
                           then None else Some(WriteFailed))
            && (t.error.None? ==>
                  && t == s.(pending := t.pending, writers := t.writers, end := c, count := s.count + 1)
                  && forall j :: 0 <= j < |s.writers| ==>
                       t.writers[j] == if j < i then s.writers[j]
                                       else Written(s.writers[j], Output(s.pending[j][c], s.start, s.origins[j])).0)
    decreases |s.pending| - i
  {
    hide Written, Output;
    if i < |s.pending| {
      var (w, ok) := Written(s.writers[i], Output(s.pending[i][c], s.start, s.origins[i]));
      if ok {
        RoundExactly(s.(writers := s.writers[i := w], pending := s.pending[i := s.pending[i] - {c}]), c, i + 1);
      }
    }
  }

  ghost predicate Covers(pending: seq<map<nat, Packet>>, list: seq<nat>) {
    forall i, c :: 0 <= i < |pending| && c in list ==> c in pending[i]
  }

  /** Every file takes everything its stream has to write. */
  ghost predicate AllTaken(s: Core, list: seq<nat>)
    requires s.Shaped() && Covers(s.pending, list)
  {
    forall i :: 0 <= i < |s.pending| ==> Taken(s, list, i).1
  }

  ghost function Taken(s: Core, list: seq<nat>, i: nat): (Writer, bool)
    requires s.Shaped() && Covers(s.pending, list) && i < |s.pending|
  {
    WrittenAll(s.writers[i], Outputs(s.pending[i], list, s.start, s.origins[i]))
  }

  lemma RoundsCover(pending: seq<map<nat, Packet>>)
    ensures Covers(pending, Rounds(pending))
  {
    RoundsAreShared(pending);
  }

  /** `t` is `s` after writing the list, or after the first refusal. */
  ghost predicate Writes(s: Core, t: Core, list: seq<nat>)
    requires s.Shaped() && t.Shaped() && Covers(s.pending, list)
  {
    && |t.pending| == |s.pending|
    && t.error == (if AllTaken(s, list) then None else Some(WriteFailed))
    && (t.error.None? ==>
          && t == s.(pending := t.pending, writers := t.writers, count := s.count + |list|,
                     end := if list == [] then s.end else list[|list| - 1])
          && (forall i :: 0 <= i < |s.pending| ==> t.writers[i] == Taken(s, list, i).0)
          && (forall i :: 0 <= i < |s.pending| ==> t.pending[i].Keys == Unlisted(s.pending[i], list)))
  }

  ghost function Unlisted(m: map<nat, Packet>, list: seq<nat>): set<nat> {
    set k | k in m && k !in list
  }

  /** Flushing succeeds exactly if every file takes all its rounds. */
  lemma {:induction false} FlushExactly(s: Core)
    requires s.Shaped() && s.error.None?
    ensures Covers(s.pending, Rounds(s.pending)) && Writes(s, Flushed(s), Rounds(s.pending))
    decreases Backlog(s.pending)
  {
    hide RoundFrom, Written, Output, Rounds, Writes, Covers;
    RoundsCover(s.pending);
    if NextRound(s.pending).Some? {
      var c := NextRound(s.pending).value;
      WithoutShrinks(s.pending);
      RoundsUnfold(s.pending, c);
      RoundsCover(Without(s.pending, c));
      RoundExactly(s, c, 0);
      var t, rest := RoundFrom(s, c, 0), Rounds(Without(s.pending, c));
      StartsOnce(s.pending, c);
      if t.error.None? {
        RoundLeaves(s, c);
        RoundShrinks(s, c);
        FlushExactly(t);
        WriteFirst(s, c, rest, t, Flushed(t));
      } else {
        RefuseFirst(s, c, rest, t);
      }
    } else {
      NoRounds(s.pending);
      WriteNothing(s);
    }
  }

  lemma StartsOnce(pending: seq<map<nat, Packet>>, c: nat)
    requires NextRound(pending) == Some(c)
    ensures c !in Rounds(Without(pending, c))
  {
    RoundsAreShared(Without(pending, c));
    assert c !in Without(pending, c)[0];
  }

  lemma RoundLeaves(s: Core, c: nat)
    requires s.Shaped() && s.error.None? && InAll(s.pending, c) && RoundFrom(s, c, 0).error.None?
    ensures RoundFrom(s, c, 0).pending == Without(s.pending, c)
  {
  }

  lemma WriteNothing(s: Core)
    requires s.Shaped() && s.error.None?
    ensures Covers(s.pending, []) && Writes(s, s, [])
  {
    assert forall i :: 0 <= i < |s.pending| ==> Taken(s, [], i) == (s.writers[i], true);
    assert forall i :: 0 <= i < |s.pending| ==> Unlisted(s.pending[i], []) == s.pending[i].Keys;
  }

  lemma RefuseFirst(s: Core, c: nat, rest: seq<nat>, t: Core)
    requires s.Shaped() && t.Shaped() && |t.pending| == |s.pending| && t.error == Some(WriteFailed) && c !in rest
    requires InAll(s.pending, c) && Covers(s.pending, [c] + rest)
    requires exists j :: 0 <= j < |s.pending| &&
               !Written(s.writers[j], Output(s.pending[j][c], s.start, s.origins[j])).1
    ensures Writes(s, t, [c] + rest)
  {
    hide Written, Output, Taken, Covers;
    var j :| 0 <= j < |s.pending| && !Written(s.writers[j], Output(s.pending[j][c], s.start, s.origins[j])).1;
    TakenFront(s, c, rest, j);
  }

  lemma WriteFirst(s: Core, c: nat, rest: seq<nat>, t: Core, u: Core)
    requires s.Shaped() && t.Shaped() && u.Shaped() && InAll(s.pending, c) && c !in rest
    requires Covers(s.pending, [c] + rest) && Covers(t.pending, rest) && Writes(t, u, rest)
    requires t == s.(pending := Without(s.pending, c), writers := t.writers, end := c, count := s.count + 1)
    requires forall j :: 0 <= j < |s.pending| ==>
               Written(s.writers[j], Output(s.pending[j][c], s.start, s.origins[j])) == (t.writers[j], true)
    ensures Writes(s, u, [c] + rest)
  {
    hide Written, Output, Covers;
    forall i | 0 <= i < |s.pending| ensures Taken(s, [c] + rest, i) == Taken(t, rest, i) {
      TakenFront(s, c, rest, i);
    }
    hide Taken;
    forall i | 0 <= i < |s.pending| ensures Unlisted(t.pending[i], rest) == Unlisted(s.pending[i], [c] + rest) {
      assert t.pending[i] == s.pending[i] - {c};
    }
  }

  /** The first packet, then the others. */
  lemma TakenFront(s: Core, c: nat, rest: seq<nat>, i: nat)
    requires s.Shaped() && i < |s.pending| && Covers(s.pending, [c] + rest) && c in s.pending[i] && c !in rest
    ensures forall k :: k in rest ==> k in Without(s.pending, c)[i]
    ensures var (w, ok) := Written(s.writers[i], Output(s.pending[i][c], s.start, s.origins[i]));
            Taken(s, [c] + rest, i) ==
            if ok then WrittenAll(w, Outputs(Without(s.pending, c)[i], rest, s.start, s.origins[i])) else (w, false)
  {
    hide Written, Output, WrittenAll;
    forall k | k in rest ensures k in s.pending[i] {
      assert k in [c] + rest;
    }
    OutputsFront(s.pending[i], c, rest, s.start, s.origins[i]);
    WrittenFront(s.writers[i], Output(s.pending[i][c], s.start, s.origins[i]),
                 Outputs(s.pending[i] - {c}, rest, s.start, s.origins[i]));
  }

  // ---- the whole batch

  lemma {:induction false} OpenedExactly(s: Core, c: nat, i: nat)
    requires s.Shaped() && i <= |s.pending| && InAll(s.pending, c)
    requires forall j :: i <= j < |s.pending| ==> Opens(s.writers[j], s.configs[j])
    ensures var t := OpenedFrom(s, c, i);
            && t == s.(started := true, writers := t.writers, origins := t.origins)
            && forall j :: 0 <= j < |s.pending| ==>
                 && (if j < i then t.writers[j] == s.writers[j]
                     else Opens(s.writers[j], s.configs[j]) && t.writers[j] == OpenedWriter(s.writers[j]))
                 && t.origins[j] == (if j < i then s.origins[j] else s.pending[j][c].dts)
    decreases |s.pending| - i
  {
    if i < |s.pending| {
      OpenedExactly(s.(writers := s.writers[i := OpenedWriter(s.writers[i])],
                       origins := s.origins[i := s.pending[i][c].dts]), c, i + 1);
    }
  }

  /** A recorder with every packet in place: nothing written, the files not yet open. */
  ghost predicate InPlace(s: Core) {
    && Lockstep(s, []) && !s.started && |s.pending| > 0
  }

  ghost function FromStart(m: seq<map<nat, Packet>>, start: nat): (n: seq<map<nat, Packet>>)
    ensures |n| == |m| && forall i :: 0 <= i < |m| ==> n[i] == AtOrAbove(m[i], start)
  {
    seq(|m|, i requires 0 <= i < |m| => AtOrAbove(m[i], start))
  }

  /** The CTS values a recording commits that starts at `start`. */
  ghost function Committed(m: seq<map<nat, Packet>>, start: nat): seq<nat> {
    Rounds(FromStart(m, start))
  }

  /** Stream 0 has the CTS, and all streams have it and every earlier one of stream 0 from the start on. */
  ghost predicate SharedFrom(m: seq<map<nat, Packet>>, start: nat, c: nat) {
    && |m| > 0 && start <= c && c in m[0]
    && forall k :: k in m[0] && start <= k <= c ==> InAll(m, k)
  }

  /** All streams hold the same CTS values from the start on. */
  ghost predicate SameFrom(m: seq<map<nat, Packet>>, start: nat) {
    forall i, k: nat :: 0 <= i < |m| && k >= start ==> (k in m[i] <==> |m| > 0 && k in m[0])
  }

  lemma SharedFromStart(m: seq<map<nat, Packet>>, start: nat, c: nat)
    ensures Shared(FromStart(m, start), c) <==> SharedFrom(m, start, c)
  {
    var n := FromStart(m, start);
    forall k: nat | k >= start ensures InAll(n, k) <==> InAll(m, k) {
      assert forall i :: 0 <= i < |m| ==> (k in n[i] <==> k in m[i]);
    }
    hide InAll;
  }

  /** What is committed are exactly the shared CTS values, in order, beginning with the start. */
  lemma CommittedIsShared(m: seq<map<nat, Packet>>, start: nat)
    requires |m| > 0 && InAll(m, start)
    ensures var list := Committed(m, start);
            && Increasing(list) && (forall c :: c in list <==> SharedFrom(m, start, c))
            && list != [] && list[0] == start
  {
    InAllFirst(m, start);
    hide InAll, Rounds, NextRound, Shared;
    RoundsAreShared(FromStart(m, start));
    forall c ensures c in Committed(m, start) <==> SharedFrom(m, start, c) {
      SharedFromStart(m, start, c);
    }
    assert SharedFrom(m, start, start);
    StartsWithLeast(Committed(m, start), start);
  }

  lemma StartsWithLeast(list: seq<nat>, start: nat)
    requires Increasing(list) && start in list && forall c :: c in list ==> start <= c
    ensures list != [] && list[0] == start
  {
    assert list[0] in list;
    var i :| 0 <= i < |list| && list[i] == start;
  }

  lemma InAllFirst(m: seq<map<nat, Packet>>, c: nat)
    requires |m| > 0 && InAll(m, c)
    ensures c in m[0]
  {
  }

  /** The files opened at the elected start. */
  lemma ElectedExactly(s: Core, start: nat)
    requires InPlace(s) && Election(s.pending) == Some(start) && !SomeRefuses(s)
    ensures var e := Elected(s);
            && e == Trimmed(s, start).(started := true, writers := e.writers, origins := e.origins)
            && InAll(e.pending, start) && |e.pending| == |s.pending|
            && forall i :: 0 <= i < |s.pending| ==>
                 start in s.pending[i]
                 && e.writers[i] == OpenedWriter(s.writers[i]) && e.origins[i] == s.pending[i][start].dts
  {
    TrimmedHasStart(s, start);
    OpenedExactly(Trimmed(s, start), start, 0);
  }

  /** What stream `i` writes if all goes well. */
  ghost function Planned(s: Core, start: nat, i: nat): seq<Packet>
    requires s.Shaped() && i < |s.pending| && start in s.pending[i] && Covers(s.pending, Committed(s.pending, start))
  {
    Outputs(s.pending[i], Committed(s.pending, start), start, s.pending[i][start].dts)
  }

  lemma CommittedCovers(m: seq<map<nat, Packet>>, start: nat)
    requires |m| > 0 && InAll(m, start)
    ensures Covers(m, Committed(m, start))
  {
    CommittedIsShared(m, start);
    forall i, c | 0 <= i < |m| && c in Committed(m, start) ensures c in m[i] {
      assert SharedFrom(m, start, c) && InAll(m, c);
    }
  }

  /** The file of stream `i` with its plan written. */
  ghost function Fate(s: Core, start: nat, i: nat): (Writer, bool)
    requires s.Shaped() && i < |s.pending| && start in s.pending[i] && Covers(s.pending, Committed(s.pending, start))
    requires s.writers[i].budget > 0
  {
    WrittenAll(OpenedWriter(s.writers[i]), Planned(s, start, i))
  }

  lemma SamePlan(s: Core, start: nat, e: Core, i: nat)
    requires InPlace(s) && Election(s.pending) == Some(start) && !SomeRefuses(s) && e == Elected(s) && i < |s.pending|
    ensures e.Shaped() && |e.pending| == |s.pending| && start in s.pending[i] && s.writers[i].budget > 0
    ensures Rounds(e.pending) == Committed(s.pending, start)
    ensures Covers(s.pending, Committed(s.pending, start)) && Covers(e.pending, Committed(s.pending, start))
    ensures Taken(e, Committed(s.pending, start), i) == Fate(s, start, i)
  {
    ElectedExactly(s, start);
    assert Opens(s.writers[i], s.configs[i]);
    assert InAll(s.pending, start);
    CommittedCovers(s.pending, start);
    RoundsCover(e.pending);
    assert e.pending == FromStart(s.pending, start);
    hide Output, Rounds, WrittenAll, Lockstep, Election, Elected, SomeRefuses, InAll;
    var list := Committed(s.pending, start);
    SamePlanned(s.pending[i], e.pending[i], list, start, e.origins[i]);
  }

  lemma SamePlanned(m: map<nat, Packet>, n: map<nat, Packet>, list: seq<nat>, start: nat, origin: int)
    requires n == AtOrAbove(m, start) && (forall c :: c in list ==> c in m) && (forall c :: c in list ==> c in n)
    ensures Outputs(n, list, start, origin) == Outputs(m, list, start, origin)
  {
    hide Output;
  }
}
