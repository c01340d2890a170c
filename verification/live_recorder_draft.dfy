/** Every completed live recording in closed form, whatever the order of delivery. The draft of a recording is what it
    would write if no file ever refused a packet; what really happens is the draft, up to the first refusal. */
module LiveRecorderDraft {
  import opened Packets
  import opened MkvWriter
  import opened LiveRecorderModel
  import opened LiveRecorderSchedule
  import opened LiveRecorderOutcome
  import opened LiveRecorderMeaning
  import opened LiveRecorderRounds
  import opened LiveRecorderVerdict

  // ---- the draft

  /** What is pending after all rounds. */
  ghost function Spent(pending: seq<map<nat, Packet>>): (r: seq<map<nat, Packet>>)
    ensures |r| == |pending|
    decreases Backlog(pending)
  {
    match NextRound(pending)
    case None => pending
    case Some(c) =>
      WithoutShrinks(pending);
      Spent(Without(pending, c))
  }

  ghost function Appended(s: Core, list: seq<nat>): (r: seq<Writer>)
    requires s.Shaped() && Covers(s.pending, list)
    ensures |r| == |s.writers|
    ensures forall i :: 0 <= i < |r| ==>
              r[i] == s.writers[i].(written := s.writers[i].written
                                               + Outputs(s.pending[i], list, s.start, s.origins[i]))
  {
    seq(|s.writers|, i requires 0 <= i < |s.writers| =>
      s.writers[i].(written := s.writers[i].written + Outputs(s.pending[i], list, s.start, s.origins[i])))
  }

  ghost function FlushDrafted(s: Core): (t: Core)
    requires s.Shaped()
    ensures t.Shaped() && |t.pending| == |s.pending|
  {
    RoundsCover(s.pending);
    var list := Rounds(s.pending);
    s.(pending := Spent(s.pending), writers := Appended(s, list), count := s.count + |list|,
       end := if list == [] then s.end else list[|list| - 1])
  }

  /** One packet enters the draft. */
  ghost function Drafted(s: Core, item: Item): (t: Core)
    requires s.Shaped()
    ensures t.Shaped() && |t.pending| == |s.pending|
  {
    if s.error.Some? then s
    else
      var t := Inserted(s, item);
      if Total(t.pending) > MAX_QUEUE_PACKETS then t.(error := Some(PendingOverflow))
      else
        var e := if t.started then t else Elected(t);
        if e.started && e.error.None? then FlushDrafted(e) else e
  }

  ghost function DraftedAll(s: Core, items: seq<Item>): (t: Core)
    requires s.Shaped()
    ensures t.Shaped() && |t.pending| == |s.pending|
  {
    if |items| == 0 then s else Drafted(DraftedAll(s, items[..|items| - 1]), items[|items| - 1])
  }

  // ---- when a file takes its part of the draft

  /** Every packet is usable, the library takes the header and all of them, and in the ticks of the file their DTS
      values never decrease in the order in which they are written. */
  ghost predicate Fits(w: Writer, plan: seq<Packet>) {
    && (forall p :: p in plan ==> Writable(p))
    && |plan| < w.budget
    && InMuxOrder(OpenedWriter(w), plan)
  }

  lemma FitsExactly(w: Writer, plan: seq<Packet>)
    requires Unused(w)
    ensures Fits(w, plan) <==> w.budget > 0 && WrittenAll(OpenedWriter(w), plan).1
    ensures Fits(w, plan) ==>
              var v := WrittenAll(OpenedWriter(w), plan).0;
              Healthy(v) && v.written == plan && v.budget + |plan| + 1 == w.budget
  {
    hide WrittenAll, InMuxOrder, Healthy, Unused, Writable;
    if w.budget > 0 {
      OpenedIsHealthy(w);
      if forall p :: p in plan ==> Writable(p) {
        WriteExactly(OpenedWriter(w), plan);
        FreshContinues(OpenedWriter(w), plan);
      } else if WrittenAll(OpenedWriter(w), plan).1 {
        TakenIsWritable(OpenedWriter(w), plan);
      }
    }
  }

  lemma {:induction false} WrittenConcat(w: Writer, x: seq<Packet>, y: seq<Packet>)
    ensures WrittenAll(w, x + y) ==
            if WrittenAll(w, x).1 then WrittenAll(WrittenAll(w, x).0, y) else (WrittenAll(w, x).0, false)
  {
    hide Written;
    if |y| == 0 {
      assert x + y == x;
    } else {
      var n := |y| - 1;
      WrittenConcat(w, x, y[..n]);
      assert (x + y)[..|x + y| - 1] == x + y[..n];
    }
  }

  /** What does not fit never fits again. */
  lemma FitsFront(w: Writer, x: seq<Packet>, y: seq<Packet>)
    requires Unused(w) && Fits(w, x + y)
    ensures Fits(w, x)
  {
    hide Fits, WrittenAll;
    FitsExactly(w, x);
    FitsExactly(w, x + y);
    WrittenConcat(OpenedWriter(w), x, y);
  }

  ghost predicate AllFit(s: Core, d: Core)
    requires s.Shaped() && d.Shaped() && |d.pending| == |s.pending|
  {
    forall i :: 0 <= i < |s.writers| ==> Fits(s.writers[i], d.writers[i].written)
  }

  ghost predicate Refused(s: Core, d: Core)
    requires s.Shaped() && d.Shaped() && |d.pending| == |s.pending|
  {
    d.started && !AllFit(s, d)
  }

  // ---- a recording follows its draft

  /** The files hold the draft. */
  ghost predicate HoldsDraft(s: Core, r: Core, d: Core)
    requires s.Shaped() && r.Shaped() && d.Shaped() && |r.pending| == |d.pending| == |s.pending|
  {
    if d.started then
      forall i :: 0 <= i < |s.writers| ==>
        s.writers[i].budget > 0
        && WrittenAll(OpenedWriter(s.writers[i]), d.writers[i].written) == (r.writers[i], true)
    else r.writers == d.writers && (d.error.None? ==> d.writers == s.writers)
  }

  ghost predicate Follows(s: Core, r: Core, d: Core)
    requires s.Shaped()
  {
    && r.Shaped() && d.Shaped() && |r.pending| == |d.pending| == |s.pending|
    && d.error != Some(WriteFailed)
    && r.error == (if Refused(s, d) then Some(WriteFailed) else d.error)
    && (!Refused(s, d) ==> r == d.(writers := r.writers) && HoldsDraft(s, r, d))
  }

  ghost predicate UnusedFiles(s: Core) {
    s.Shaped() && forall i :: 0 <= i < |s.writers| ==> Unused(s.writers[i])
  }

  lemma {:induction false} FlushSpends(s: Core)
    requires s.Shaped() && s.error.None?
    ensures Flushed(s).error.None? ==> Flushed(s).pending == Spent(s.pending)
    decreases Backlog(s.pending)
  {
    hide RoundFrom, Without;
    if NextRound(s.pending).Some? {
      var c := NextRound(s.pending).value;
      RoundShrinks(s, c);
      if RoundFrom(s, c, 0).error.None? {
        RoundLeaves(s, c);
        FlushSpends(RoundFrom(s, c, 0));
      }
    }
  }

  ghost predicate InDraft(s: Core, r: Core, d: Core)
    requires s.Shaped()
  {
    && r.Shaped() && d.Shaped() && |r.pending| == |d.pending| == |s.pending|
    && r == d.(writers := r.writers) && d.error.None? && d.started && HoldsDraft(s, r, d)
  }

  lemma TakenIsDraft(s: Core, r: Core, d: Core, i: nat)
    requires UnusedFiles(s) && InDraft(s, r, d) && i < |s.writers|
    ensures Covers(r.pending, Rounds(r.pending))
    ensures Taken(r, Rounds(r.pending), i) ==
            WrittenAll(OpenedWriter(s.writers[i]), FlushDrafted(d).writers[i].written)
    ensures Taken(r, Rounds(r.pending), i).1 <==> Fits(s.writers[i], FlushDrafted(d).writers[i].written)
  {
    hide Rounds, WrittenAll, Outputs, Fits, Unused, Spent, Covers;
    RoundsCover(d.pending);
    var plan, more := d.writers[i].written, Outputs(d.pending[i], Rounds(d.pending), d.start, d.origins[i]);
    WrittenConcat(OpenedWriter(s.writers[i]), plan, more);
    FitsExactly(s.writers[i], plan + more);
  }

  /** What a flush does to a recording that holds its draft. */
  lemma FlushInDraft(s: Core, r: Core, d: Core)
    requires UnusedFiles(s) && InDraft(s, r, d)
    ensures var t, u := Flushed(r), FlushDrafted(d);
            && t.error == (if AllFit(s, u) then None else Some(WriteFailed))
            && (t.error.None? ==> t == u.(writers := t.writers) && HoldsDraft(s, t, u))
  {
    FlushExactly(r);
    FlushSpends(r);
    hide Flushed, Rounds, WrittenAll, Outputs, Appended, Fits, UnusedFiles, Spent, Covers, Taken, Unlisted;
    var list, t, u := Rounds(r.pending), Flushed(r), FlushDrafted(d);
    forall i | 0 <= i < |s.writers|
      ensures Taken(r, list, i) == WrittenAll(OpenedWriter(s.writers[i]), u.writers[i].written)
      ensures Taken(r, list, i).1 <==> Fits(s.writers[i], u.writers[i].written)
    {
      TakenIsDraft(s, r, d, i);
    }
    assert t.error.None? ==> t == u.(writers := t.writers);
  }

  /** One flush of a recording that holds its draft. */
  lemma FlushFollows(s: Core, r: Core, d: Core)
    requires UnusedFiles(s) && InDraft(s, r, d)
    ensures Follows(s, Flushed(r), FlushDrafted(d))
  {
    hide Flushed, HoldsDraft, AllFit, UnusedFiles, Spent, Rounds, Outputs;
    FlushInDraft(s, r, d);
  }

  lemma InsertWriters(s: Core, item: Item, writers: seq<Writer>)
    requires s.Shaped() && |writers| == |s.writers|
    ensures Inserted(s.(writers := writers), item) == Inserted(s, item).(writers := writers)
    ensures Inserted(s, item).writers == s.writers && Inserted(s, item).started == s.started
    ensures Inserted(s, item).error == s.error
  {
  }

  /** What the draft has written stays, and so does what does not fit. */
  lemma RefusedStays(s: Core, d: Core, item: Item)
    requires UnusedFiles(s) && d.Shaped() && |d.pending| == |s.pending| && Refused(s, d) && d.error != Some(WriteFailed)
    ensures Refused(s, Drafted(d, item)) && Drafted(d, item).error != Some(WriteFailed)
  {
    hide Inserted, Total, Fits, Unused, Rounds, Spent, Outputs, Covers;
    var t := Inserted(d, item);
    InsertWriters(d, item, d.writers);
    if d.error.None? && Total(t.pending) <= MAX_QUEUE_PACKETS {
      RoundsCover(t.pending);
      var i :| 0 <= i < |s.writers| && !Fits(s.writers[i], d.writers[i].written);
      var more := Outputs(t.pending[i], Rounds(t.pending), t.start, t.origins[i]);
      assert Drafted(d, item).writers[i].written == d.writers[i].written + more;
      if Fits(s.writers[i], d.writers[i].written + more) {
        FitsFront(s.writers[i], d.writers[i].written, more);
      }
    }
  }

  /** The start of a recording and of its draft. */
  lemma ElectFollows(s: Core, t: Core)
    requires UnusedFiles(s) && t.Shaped() && |t.pending| == |s.pending| && t.error.None? && !t.started
    requires t.writers == s.writers
    ensures var e := Elected(t);
            && (e.started ==> e.error.None? && HoldsDraft(s, e, e))
            && (!e.started && e.error.None? ==> e == t)
            && e.error in {None, Some(OpenFailed)}
  {
    hide Unused;
    if Election(t.pending).None? {
      NoElection(t);
    } else {
      var start := Election(t.pending).value;
      ElectedStarts(t);
      OpenFailsExactly(t);
      if !SomeRefuses(t) {
        TrimmedHasStart(t, start);
        OpenedExactly(Trimmed(t, start), start, 0);
        forall i | 0 <= i < |s.writers|
          ensures s.writers[i].budget > 0
          ensures WrittenAll(OpenedWriter(s.writers[i]), Elected(t).writers[i].written) == (Elected(t).writers[i], true)
        {
          assert Opens(t.writers[i], t.configs[i]);
          OpenedIsHealthy(s.writers[i]);
        }
      }
    }
  }

  lemma StepFollows(s: Core, r: Core, d: Core, item: Item)
    requires UnusedFiles(s) && Follows(s, r, d)
    ensures Follows(s, Processed(r, item), Drafted(d, item))
  {
    hide Inserted, Total, Fits, Unused, Flushed, FlushDrafted, Elected, WrittenAll;
    if Refused(s, d) {
      RefusedStays(s, d, item);
    } else if d.error.None? {
      InsertWriters(d, item, r.writers);
      var t, u := Inserted(r, item), Inserted(d, item);
      if Total(u.pending) <= MAX_QUEUE_PACKETS {
        if d.started {
          FlushFollows(s, t, u);
        } else {
          ElectFollows(s, u);
          var e := Elected(u);
          if e.started {
            FlushFollows(s, e, e);
          }
        }
      }
    }
  }

  /** In every run, whatever was delivered in whatever order: the recording fails to write exactly if some file does not
      take its part of the draft; otherwise it is the draft. */
  lemma {:induction false} RunFollows(s: Core, items: seq<Item>)
    requires Ready(s)
    ensures Follows(s, ProcessedAll(s, items), DraftedAll(s, items))
  {
    hide Processed, Drafted;
    if |items| == 0 {
      assert HoldsDraft(s, s, s);
    } else {
      hide Follows, Unused;
      RunFollows(s, items[..|items| - 1]);
      StepFollows(s, ProcessedAll(s, items[..|items| - 1]), DraftedAll(s, items[..|items| - 1]), items[|items| - 1]);
    }
  }

  // ---- what a draft looks like

  /** All files are to receive the same CTS values, the start first and the end last. */
  ghost predicate DraftOk(d: Core) {
    && d.Shaped() && |d.pending| > 0 && Keyed(d.pending)
    && (!d.started ==> d.count == 0 && forall i :: 0 <= i < |d.writers| ==> d.writers[i].written == [])
    && (d.started ==>
          var plan := d.writers[0].written;
          && plan != [] && plan[0].cts == d.start && plan[|plan| - 1].cts == d.end && d.count == |plan|
          && forall i :: 0 <= i < |d.writers| ==> CtsOf(d.writers[i].written) == CtsOf(plan))
  }

  lemma {:induction false} SpentKeyed(pending: seq<map<nat, Packet>>)
    requires Keyed(pending)
    ensures Keyed(Spent(pending))
    decreases Backlog(pending)
  {
    if NextRound(pending).Some? {
      WithoutShrinks(pending);
      SpentKeyed(Without(pending, NextRound(pending).value));
    }
  }

  lemma OutputsCts(m: map<nat, Packet>, list: seq<nat>, start: nat, origin: int)
    requires forall c :: c in list ==> c in m && m[c].cts == c
    ensures CtsOf(Outputs(m, list, start, origin)) == list
  {
    hide Output;
    forall k | 0 <= k < |list| ensures Outputs(m, list, start, origin)[k].cts == list[k] {
      assert list[k] in list;
      OutputKeepsCts(m[list[k]], start, origin);
    }
  }

  /** A flush of a draft appends its rounds to every file. */
  lemma FlushedPlans(d: Core)
    requires d.Shaped() && Keyed(d.pending)
    ensures Keyed(FlushDrafted(d).pending)
    ensures forall i :: 0 <= i < |d.writers| ==>
              CtsOf(FlushDrafted(d).writers[i].written) == CtsOf(d.writers[i].written) + Rounds(d.pending)
  {
    hide Rounds, Spent, Outputs;
    SpentKeyed(d.pending);
    RoundsCover(d.pending);
    var list := Rounds(d.pending);
    forall i | 0 <= i < |d.writers|
      ensures CtsOf(FlushDrafted(d).writers[i].written) == CtsOf(d.writers[i].written) + list
    {
      OutputsCts(d.pending[i], list, d.start, d.origins[i]);
      CtsConcat(d.writers[i].written, Outputs(d.pending[i], list, d.start, d.origins[i]));
    }
  }

  lemma FlushKeepsDraft(d: Core)
    requires DraftOk(d) && d.started
    ensures DraftOk(FlushDrafted(d))
  {
    hide Rounds, Spent, FlushDrafted, Keyed;
    FlushedPlans(d);
    RoundsCover(d.pending);
    var u, list := FlushDrafted(d), Rounds(d.pending);
    FlushFields(d);
    LastOfCts(d.writers[0].written, list, u.writers[0].written);
  }

  lemma FlushFields(d: Core)
    requires d.Shaped()
    ensures var u, list := FlushDrafted(d), Rounds(d.pending);
            && |u.writers| == |d.writers| && u.started == d.started && u.start == d.start && u.error == d.error
            && u.count == d.count + |list| && u.end == if list == [] then d.end else list[|list| - 1]
  {
  }

  lemma LastOfCts(x: seq<Packet>, list: seq<nat>, y: seq<Packet>)
    requires CtsOf(y) == CtsOf(x) + list
    ensures |y| == |x| + |list|
    ensures x != [] ==> y[0].cts == x[0].cts
    ensures y != [] ==> y[|y| - 1].cts == if list == [] then x[|x| - 1].cts else list[|list| - 1]
    ensures x == [] && list != [] ==> y[0].cts == list[0]
  {
    assert |CtsOf(y)| == |y|;
    if y != [] {
      assert CtsOf(y)[0] == y[0].cts && CtsOf(y)[|y| - 1] == y[|y| - 1].cts;
    }
  }

  lemma FirstFlush(e: Core)
    requires e.Shaped() && |e.pending| > 0 && Keyed(e.pending) && e.started && e.count == 0
    requires forall i :: 0 <= i < |e.writers| ==> e.writers[i].written == []
    requires Rounds(e.pending) != [] && Rounds(e.pending)[0] == e.start
    ensures DraftOk(FlushDrafted(e))
  {
    hide Rounds, FlushDrafted, Keyed;
    FlushedPlans(e);
    FlushFields(e);
    LastOfCts([], Rounds(e.pending), FlushDrafted(e).writers[0].written);
  }

  /** The first flush begins with the start. */
  lemma ElectedDraft(t: Core)
    requires DraftOk(t) && !t.started && t.error.None?
    ensures var e := Elected(t);
            if e.started then DraftOk(FlushDrafted(e)) else DraftOk(e)
  {
    hide Elected, Rounds, FlushDrafted, Election, Keyed;
    if Election(t.pending).None? {
      NoElection(t);
    } else {
      var start := Election(t.pending).value;
      ElectedStarts(t);
      OpenKeepsPlans(t, start);
      if Elected(t).started {
        FirstRounds(t, start);
        FirstFlush(Elected(t));
      }
    }
  }

  lemma FirstRounds(t: Core, start: nat)
    requires t.Shaped() && Election(t.pending) == Some(start)
    ensures var list := Rounds(FromStart(t.pending, start)); list != [] && list[0] == start
  {
    hide Rounds;
    ElectedInAll(t.pending, start);
    CommittedIsShared(t.pending, start);
  }

  /** Opening writes nothing and drops what is older than the start. */
  lemma OpenKeepsPlans(t: Core, start: nat)
    requires DraftOk(t) && !t.started && t.error.None? && Election(t.pending) == Some(start)
    ensures var e := Elected(t);
            && e.pending == FromStart(t.pending, start) && Keyed(e.pending) && |e.writers| == |t.writers|
            && forall i :: 0 <= i < |t.writers| ==> e.writers[i].written == []
  {
    TrimmedHasStart(t, start);
    OpenWritesNothing(Trimmed(t, start), start, 0);
  }

  lemma {:induction false} OpenWritesNothing(s: Core, c: nat, i: nat)
    requires s.Shaped() && i <= |s.pending| && InAll(s.pending, c)
    requires forall j :: 0 <= j < |s.writers| ==> s.writers[j].written == []
    ensures forall j :: 0 <= j < |s.writers| ==> OpenedFrom(s, c, i).writers[j].written == []
    decreases |s.pending| - i
  {
    if i < |s.pending| && Opens(s.writers[i], s.configs[i]) {
      OpenWritesNothing(s.(writers := s.writers[i := OpenedWriter(s.writers[i])],
                           origins := s.origins[i := s.pending[i][c].dts]), c, i + 1);
    }
  }

  lemma InsertKeepsDraft(d: Core, item: Item)
    requires DraftOk(d)
    ensures DraftOk(Inserted(d, item))
  {
  }

  lemma {:induction false} RunDraft(s: Core, items: seq<Item>)
    requires Ready(s)
    ensures DraftOk(DraftedAll(s, items))
  {
    hide Inserted, Total, DraftOk, FlushDrafted, Elected, Unused;
    if |items| == 0 {
      NothingDrafted(s);
    } else {
      var d, item := DraftedAll(s, items[..|items| - 1]), items[|items| - 1];
      RunDraft(s, items[..|items| - 1]);
      if d.error.None? {
        InsertKeepsDraft(d, item);
        InsertWriters(d, item, d.writers);
        var t := Inserted(d, item);
        if Total(t.pending) > MAX_QUEUE_PACKETS {
          FailedDraft(t, PendingOverflow);
        } else if t.started {
          FlushKeepsDraft(t);
        } else {
          ElectedDraft(t);
          ElectedOrFailed(t);
        }
      }
    }
  }

  lemma ElectedOrFailed(t: Core)
    requires t.Shaped() && t.error.None? && !t.started
    ensures Elected(t).started ==> Elected(t).error.None?
  {
    if Election(t.pending).Some? { ElectedStarts(t); } else { NoElection(t); }
  }

  lemma NothingDrafted(s: Core)
    requires Ready(s)
    ensures DraftOk(s)
  {
  }

  lemma FailedDraft(t: Core, reason: Reason)
    requires DraftOk(t)
    ensures DraftOk(t.(error := Some(reason)))
  {
  }

  // ---- the outcome of every completed recording

  /** No frame lies outside the range from the start to the last frame written. */
  ghost predicate InRange(d: Core)
    requires d.Shaped() && |d.pending| > 0
  {
    forall p :: p in d.writers[0].written ==> d.start <= p.cts <= d.end
  }

  /** ... and the library takes every trailer. */
  ghost predicate AllEnd(s: Core, d: Core)
    requires s.Shaped() && d.Shaped() && |d.pending| == |s.pending| > 0
  {
    InRange(d) && forall i :: 0 <= i < |s.writers| ==> |d.writers[i].written| + 1 < s.writers[i].budget
  }

  /** The first obstacle in this order, or success. */
  ghost function Ending(s: Core, d: Core): Outcome
    requires s.Shaped() && d.Shaped() && |d.pending| == |s.pending| > 0
  {
    if Refused(s, d) then Reported(WriteFailed)
    else if d.error.Some? then Reported(d.error.value)
    else if !d.started then Reported(NoCommonStart)
    else if !AllEmpty(d.pending) then Reported(UnresolvedPrefix)
    else
      Outcome(AllEnd(s, d), d.start, d.end, d.count,
              if AllEnd(s, d) then None else Some(LiveRecorderModel.RangeMismatch))
  }

  /** A worker that has not failed has nothing left to settle. */
  lemma {:induction false} RunIsSettled(s: Core, items: seq<Item>)
    requires Ready(s) && ProcessedAll(s, items).error.None?
    ensures Settled(ProcessedAll(s, items)) == ProcessedAll(s, items)
  {
    hide Settled, Inserted, Total;
    if |items| == 0 {
      SettleNothing(s);
    } else {
      var r, item := ProcessedAll(s, items[..|items| - 1]), items[|items| - 1];
      InsertKeepsError(r, item);
      SettledTwice(Inserted(r, item));
    }
  }

  lemma SameCtsIn(x: seq<Packet>, y: seq<Packet>, lo: nat, hi: nat)
    requires CtsOf(x) == CtsOf(y) && forall p :: p in x ==> lo <= p.cts <= hi
    ensures forall p :: p in y ==> lo <= p.cts <= hi
  {
    forall p | p in y ensures lo <= p.cts <= hi {
      var k :| 0 <= k < |y| && y[k] == p;
      assert CtsOf(x)[k] == CtsOf(y)[k] && x[k] in x;
    }
  }

  lemma SpanExactly(w: Writer, start: nat, end: nat)
    requires Healthy(w) && w.written != []
    requires w.written[0].cts == start && w.written[|w.written| - 1].cts == end
    ensures Closes(w, start, end) <==> w.budget > 0 && forall p :: p in w.written ==> start <= p.cts <= end
  {
    assert w.written[0] in w.written && w.written[|w.written| - 1] in w.written;
  }

  /** A file that holds its part of the draft spans the range exactly if no frame lies outside. */
  lemma FileCloses(d: Core, w: Writer, i: nat)
    requires DraftOk(d) && d.started && i < |d.writers| && Healthy(w) && w.written == d.writers[i].written
    ensures w.written != []
    ensures Closes(w, d.start, d.end) <==> w.budget > 0 && InRange(d)
  {
    hide Healthy, Keyed, Closes;
    var plan := d.writers[0].written;
    assert |CtsOf(w.written)| == |CtsOf(plan)|;
    assert CtsOf(plan)[0] == w.written[0].cts && CtsOf(plan)[|plan| - 1] == w.written[|plan| - 1].cts;
    SpanExactly(w, d.start, d.end);
    if InRange(d) {
      SameCtsIn(plan, w.written, d.start, d.end);
    } else if forall p :: p in w.written ==> d.start <= p.cts <= d.end {
      SameCtsIn(w.written, plan, d.start, d.end);
    }
  }

  /** Closing a complete draft. */
  lemma DraftCloses(s: Core, r: Core, d: Core)
    requires UnusedFiles(s) && InDraft(s, r, d) && DraftOk(d)
    ensures ClosedFrom(r, 0).error == if AllEnd(s, d) then None else Some(LiveRecorderModel.RangeMismatch)
    ensures AllEnd(s, d) ==> d.start <= d.end
  {
    hide Healthy, WrittenAll, Closes, Fits, Unused;
    forall i | 0 <= i < |r.writers|
      ensures Healthy(r.writers[i]) && r.writers[i].written != []
      ensures Closes(r.writers[i], r.start, r.end) <==>
                InRange(d) && |d.writers[i].written| + 1 < s.writers[i].budget
    {
      FitsExactly(s.writers[i], d.writers[i].written);
      FileCloses(d, r.writers[i], i);
    }
    CloseExactly(r, 0);
    assert d.writers[0].written[0] in d.writers[0].written;
  }

  lemma FollowsInDraft(s: Core, r: Core, d: Core)
    requires UnusedFiles(s) && Follows(s, r, d) && r.error.None? && d.started
    ensures InDraft(s, r, d)
  {
  }

  /** What a run ends with that has followed its draft. */
  lemma EndsExactly(s: Core, r: Core, d: Core)
    requires UnusedFiles(s) && Follows(s, r, d) && DraftOk(d) && (r.error.None? ==> Settled(r) == r)
    ensures OutcomeOf(Drained(r)) == Ending(s, d)
    ensures Drained(r).writers == r.writers
  {
    hide Settled, DraftOk, Unused, Fits, HoldsDraft, AllEnd;
    if r.error.None? && d.started {
      FollowsInDraft(s, r, d);
      DraftCloses(s, r, d);
      CloseKeeps(r, 0);
    }
  }

  lemma FollowedFiles(s: Core, r: Core, d: Core)
    requires UnusedFiles(s) && Follows(s, r, d) && !Refused(s, d)
    ensures forall i :: 0 <= i < |s.writers| ==> r.writers[i].written == d.writers[i].written
  {
    hide Healthy, WrittenAll, Unused;
    if d.started {
      forall i | 0 <= i < |s.writers| ensures r.writers[i].written == d.writers[i].written {
        FitsExactly(s.writers[i], d.writers[i].written);
      }
    }
  }

  /** Every completed recording, whatever was delivered in whatever order: its outcome is that of its draft, and unless
      some file refused its part, the files hold exactly the draft. */
  lemma RunExactly(s: Core, steps: seq<Step>)
    requires Ready(s) && Completed(After(s, steps))
    ensures var r, d := After(s, steps), DraftedAll(s, Offered(steps, |s.pending|));
            && r.outcome == Some(Ending(s, d))
            && (!Refused(s, d) ==>
                  |r.core.writers| == |d.writers|
                  && forall i :: 0 <= i < |d.writers| ==> r.core.writers[i].written == d.writers[i].written)
  {
    hide After, Offered, ProcessedAll, DraftedAll, Follows, Ending, Unused, Drained, ClosedFrom, OutcomeOf, Refused;
    var offered := Offered(steps, |s.pending|);
    var r, d := ProcessedAll(s, offered), DraftedAll(s, offered);
    RunInStep(s, steps);
    RunFollows(s, offered);
    RunDraft(s, offered);
    if r.error.None? {
      RunIsSettled(s, offered);
    }
    EndsExactly(s, r, d);
    ClosedKeepsWritten(Drained(r), 0);
    if !Refused(s, d) {
      FollowedFiles(s, r, d);
    }
  }

  // ---- exactly when writing fails

  /** Every packet is usable, the library takes them all, and their DTS values continue in file ticks what the file
      holds. */
  ghost predicate CanTake(w: Writer, packets: seq<Packet>) {
    && Usable(w) && (forall p :: p in packets ==> Writable(p))
    && |packets| <= w.budget && Continues(w, packets)
  }

  lemma TakesExactly(w: Writer, packets: seq<Packet>)
    requires Healthy(w)
    ensures WrittenAll(w, packets).1 <==> CanTake(w, packets)
  {
    hide WrittenAll, Healthy, Continues, Writable;
    HealthyIsUsable(w);
    if forall p :: p in packets ==> Writable(p) {
      WriteExactly(w, packets);
    } else if WrittenAll(w, packets).1 {
      TakenIsWritable(w, packets);
    }
  }

  /** In every state that a started recording can reach: a flush fails exactly if some file cannot take its packets of
      the rounds. */
  lemma FlushRefusedExactly(s: Core, list: seq<nat>)
    requires Lockstep(s, list) && s.started
    ensures Covers(s.pending, Rounds(s.pending))
    ensures Flushed(s).error ==
            if forall i :: 0 <= i < |s.writers| ==>
                 CanTake(s.writers[i], Outputs(s.pending[i], Rounds(s.pending), s.start, s.origins[i]))
            then None else Some(WriteFailed)
  {
    hide Flushed, Rounds, WrittenAll, CanTake, Outputs, Healthy, Unlisted;
    FlushExactly(s);
    forall i | 0 <= i < |s.writers|
      ensures Taken(s, Rounds(s.pending), i).1 <==>
                CanTake(s.writers[i], Outputs(s.pending[i], Rounds(s.pending), s.start, s.origins[i]))
    {
      TakesExactly(s.writers[i], Outputs(s.pending[i], Rounds(s.pending), s.start, s.origins[i]));
    }
  }

  lemma {:induction false} MuxOrderAcross(w: Writer, plan: seq<Packet>, a: nat, b: nat)
    requires Usable(w) && (forall p :: p in plan ==> Writable(p)) && InMuxOrder(w, plan) && a <= b < |plan|
    ensures MuxedDts(w.Anchored(plan[0]), plan[a]) <= MuxedDts(w.Anchored(plan[0]), plan[b])
    decreases b - a
  {
    hide MuxedDts;
    if a < b {
      MuxOrderAcross(w, plan, a, b - 1);
    }
  }

  /** Frames that are decoded in another order than they are written: if the DTS of some stream, in the ticks of its
      file, is smaller at a later place of the draft than at an earlier one, every such recording fails. */
  lemma ReorderedFails(s: Core, steps: seq<Step>, i: nat, a: nat, b: nat)
    requires Ready(s) && Completed(After(s, steps)) && i < |s.writers| && s.writers[i].budget > 0
    requires var d := DraftedAll(s, Offered(steps, |s.pending|));
             var w, plan := OpenedWriter(s.writers[i]), d.writers[i].written;
             && d.started && a < b < |plan| && (forall p :: p in plan ==> Writable(p))
             && MuxedDts(w.Anchored(plan[0]), plan[b]) < MuxedDts(w.Anchored(plan[0]), plan[a])
    ensures After(s, steps).outcome == Some(Reported(WriteFailed))
  {
    hide After, Offered, DraftedAll, MuxedDts, InMuxOrder, Unused;
    var plan := DraftedAll(s, Offered(steps, |s.pending|)).writers[i].written;
    RunExactly(s, steps);
    if Fits(s.writers[i], plan) {
      MuxOrderAcross(OpenedWriter(s.writers[i]), plan, a, b);
    }
  }
}
