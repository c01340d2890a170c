/** The three passes over the configured streams that keep the encoders in line with the demand. */
module EncoderDemand {
  import opened Packets
  import opened CaptureConfiguration
  import opened Encoders

  ghost function Ids(e: seq<ConfiguredStream>): (ids: set<nat>)
    ensures forall k: nat :: k in ids <==> k < |e|
  {
    if |e| == 0 then {} else Ids(e[..|e| - 1]) + {|e| - 1}
  }

  // ---- the passes

  /** Creates the missing encoders of the first `i` streams, up to the first refusal. */
  function CreatedUpTo(streams: seq<ConfiguredStream>, x: EncoderState, i: nat): (EncoderState, bool)
    requires i <= |streams|
  {
    if i == 0 then (x, true)
    else
      var (y, ok) := CreatedUpTo(streams, x, i - 1);
      var id := CaptureIdOf(streams, streams[i - 1].identity);
      if !ok || id.None? || streams[i - 1].mode.Disabled? || id.value in y.active then (y, ok)
      else Created(y, id.value)
  }

  /** Starts what the first `i` streams need, up to the first refusal. */
  function ActivatedUpTo(streams: seq<ConfiguredStream>, recording: bool, replay: bool, x: EncoderState, i: nat):
    (EncoderState, bool)
    requires i <= |streams|
  {
    if i == 0 then (x, true)
    else
      var (y, ok) := ActivatedUpTo(streams, recording, replay, x, i - 1);
      var id := CaptureIdOf(streams, streams[i - 1].identity);
      if !ok || id.None? || !StreamNeedsEncoder(streams[i - 1].mode, recording, replay) || id.value in y.active
      then (y, ok)
      else Activated(y, id.value)
  }

  /** Releases what the first `i` streams do not need. */
  function ReleasedUpTo(streams: seq<ConfiguredStream>, recording: bool, replay: bool, x: EncoderState, i: nat):
    EncoderState
    requires i <= |streams|
  {
    if i == 0 then x
    else
      var y := ReleasedUpTo(streams, recording, replay, x, i - 1);
      var id := CaptureIdOf(streams, streams[i - 1].identity);
      if id.None? || StreamNeedsEncoder(streams[i - 1].mode, recording, replay) || id.value !in y.active then y
      else Released(y, id.value)
  }

  function Reconciled(streams: seq<ConfiguredStream>, recording: bool, replay: bool, x: EncoderState):
    (EncoderState, bool)
  {
    var (y, ok) := CreatedUpTo(streams, x, |streams|);
    if ok then ActivatedUpTo(streams, recording, replay, y, |streams|) else (y, false)
  }

  function Trimmed(streams: seq<ConfiguredStream>, recording: bool, replay: bool, x: EncoderState): EncoderState {
    ReleasedUpTo(streams, recording, replay, x, |streams|)
  }

  // ---- what they do in a numbered configuration

  ghost predicate Numbered(streams: seq<ConfiguredStream>) {
    EnabledDistinct(streams) && |Enabled(streams)| < ID_COUNT
  }

  lemma {:induction false} CreatingStartsNothing(streams: seq<ConfiguredStream>, x: EncoderState, i: nat)
    requires Numbered(streams) && i <= |streams|
    ensures var (y, ok) := CreatedUpTo(streams, x, i);
            && y.active == x.active && Extends(x.trace, y.trace, {}, Ids(Enabled(streams)))
            && (ok ==> forall k: nat :: k < Rank(streams, i) && k !in x.active ==> Create(k) in y.trace[|x.trace|..])
  {
    hide Enabled, CaptureIdOf, Rank, Extends;
    var ids := Ids(Enabled(streams));
    RankEnds(streams);
    if i == 0 {
      ExtendsItself(x.trace, {}, ids);
    } else {
      CreatingStartsNothing(streams, x, i - 1);
      IdAt(streams, i - 1);
      var (y, ok) := CreatedUpTo(streams, x, i - 1);
      var id := CaptureIdOf(streams, streams[i - 1].identity);
      if ok && id.Some? && id.value !in y.active {
        CreatedOne(x, y, id.value, ids);
      }
    }
  }

  lemma CreatedOne(x: EncoderState, y: EncoderState, id: nat, ids: set<nat>)
    requires Extends(x.trace, y.trace, {}, ids)
    ensures var (z, ok) := Created(y, id);
            && z.active == y.active && Extends(x.trace, z.trace, {}, ids)
            && (ok ==> Create(id) in z.trace[|x.trace|..])
            && (forall c :: c in y.trace[|x.trace|..] ==> c in z.trace[|x.trace|..])
  {
    ExtendsByOne(x.trace, y.trace, Create(id), {}, ids);
    assert (y.trace + [Create(id)])[|x.trace|..] == y.trace[|x.trace|..] + [Create(id)];
  }

  /** Only demanded inactive encoders start; whether anything started shows in the active set. */
  lemma {:induction false} ActivatingMeetsDemand(streams: seq<ConfiguredStream>, recording: bool, replay: bool,
                                                 x: EncoderState, i: nat)
    requires Numbered(streams) && i <= |streams|
    ensures var demand := Demand(Enabled(streams), recording, replay);
            var (y, ok) := ActivatedUpTo(streams, recording, replay, x, i);
            && x.active <= y.active <= x.active + demand
            && Extends(x.trace, y.trace, demand - x.active, Ids(Enabled(streams)))
            && (NoActivate(y.trace[|x.trace|..]) <==> y.active == x.active)
            && (ok ==> forall k: nat :: k < Rank(streams, i) && k in demand ==> k in y.active)
  {
    hide Enabled, CaptureIdOf, Rank, Extends;
    var ids, demand := Ids(Enabled(streams)), Demand(Enabled(streams), recording, replay);
    RankEnds(streams);
    if i == 0 {
      ExtendsItself(x.trace, demand - x.active, ids);
    } else {
      ActivatingMeetsDemand(streams, recording, replay, x, i - 1);
      IdAt(streams, i - 1);
      var (y, ok) := ActivatedUpTo(streams, recording, replay, x, i - 1);
      var id := CaptureIdOf(streams, streams[i - 1].identity);
      if ok && id.Some? && StreamNeedsEncoder(streams[i - 1].mode, recording, replay) && id.value !in y.active {
        ActivatedOne(x, y, id.value, demand - x.active, ids);
      }
    }
  }

  lemma ActivatedOne(x: EncoderState, y: EncoderState, id: nat, starts: set<nat>, ids: set<nat>)
    requires Extends(x.trace, y.trace, starts, ids) && id in starts && x.active <= y.active && id !in y.active
    requires NoActivate(y.trace[|x.trace|..]) <==> y.active == x.active
    ensures var (z, ok) := Activated(y, id);
            && Extends(x.trace, z.trace, starts, ids)
            && (NoActivate(z.trace[|x.trace|..]) <==> z.active == x.active)
            && z.active == if ok then y.active + {id} else y.active
  {
    ExtendsByOne(x.trace, y.trace, Activate(id), starts, ids);
    var t := (y.trace + [Activate(id)])[|x.trace|..];
    assert t == y.trace[|x.trace|..] + [Activate(id)] && Activate(id) in t;
  }

  lemma ReconcilingMeetsDemand(streams: seq<ConfiguredStream>, recording: bool, replay: bool, x: EncoderState)
    requires Numbered(streams)
    ensures var demand := Demand(Enabled(streams), recording, replay);
            var (y, ok) := Reconciled(streams, recording, replay, x);
            && x.active <= y.active <= x.active + demand
            && Extends(x.trace, y.trace, demand - x.active, Ids(Enabled(streams)))
            && (NoActivate(y.trace[|x.trace|..]) <==> y.active == x.active)
            && (ok ==> demand <= y.active)
  {
    hide Enabled, Demand, CreatedUpTo, ActivatedUpTo, Rank;
    var n := |streams|;
    var ids, demand := Ids(Enabled(streams)), Demand(Enabled(streams), recording, replay);
    RankEnds(streams);
    CreatingStartsNothing(streams, x, n);
    var (c, ok) := CreatedUpTo(streams, x, n);
    DemandIsNumbered(Enabled(streams), recording, replay);
    if ok {
      ActivatingMeetsDemand(streams, recording, replay, c, n);
      var y := ActivatedUpTo(streams, recording, replay, c, n).0;
      ExtendsTwice(x.trace, c.trace, y.trace, {}, ids, demand - x.active, ids);
      assert {} + (demand - x.active) == demand - x.active && ids * ids == ids;
      TraceSplit(x.trace, c.trace, y.trace);
    }
  }

  lemma DemandIsNumbered(e: seq<ConfiguredStream>, recording: bool, replay: bool)
    ensures Demand(e, recording, replay) <= Ids(e)
  {
  }

  /** Nothing starts before every missing encoder has been created. */
  lemma CreatesBeforeStarting(streams: seq<ConfiguredStream>, recording: bool, replay: bool, x: EncoderState)
    requires Numbered(streams)
    ensures var c, y := CreatedUpTo(streams, x, |streams|).0, Reconciled(streams, recording, replay, x).0;
            && x.trace <= c.trace <= y.trace && NoActivate(c.trace[|x.trace|..])
            && (c.trace != y.trace ==>
                  forall k :: k in Ids(Enabled(streams)) - x.active ==> Create(k) in c.trace[|x.trace|..])
  {
    hide Enabled, Demand, CreatedUpTo, ActivatedUpTo, Rank;
    RankEnds(streams);
    CreatingStartsNothing(streams, x, |streams|);
    var (c, ok) := CreatedUpTo(streams, x, |streams|);
    if ok {
      ActivatingMeetsDemand(streams, recording, replay, c, |streams|);
    }
  }

  /** Exactly the undemanded encoders of the configured streams are released. */
  lemma {:induction false} ReleasingLeavesDemand(streams: seq<ConfiguredStream>, recording: bool, replay: bool,
                                                 x: EncoderState, i: nat)
    requires Numbered(streams) && i <= |streams|
    ensures var demand := Demand(Enabled(streams), recording, replay);
            var y := ReleasedUpTo(streams, recording, replay, x, i);
            && y.verdicts == x.verdicts && Extends(x.trace, y.trace, {}, demand)
            && (forall k :: k in y.active <==> k in x.active && (k >= Rank(streams, i) || k in demand))
  {
    hide Enabled, CaptureIdOf, Rank, Extends;
    var demand := Demand(Enabled(streams), recording, replay);
    RankEnds(streams);
    if i == 0 {
      ExtendsItself(x.trace, {}, demand);
    } else {
      ReleasingLeavesDemand(streams, recording, replay, x, i - 1);
      IdAt(streams, i - 1);
      var y := ReleasedUpTo(streams, recording, replay, x, i - 1);
      var id := CaptureIdOf(streams, streams[i - 1].identity);
      if id.Some? && !StreamNeedsEncoder(streams[i - 1].mode, recording, replay) && id.value in y.active {
        ExtendsByOne(x.trace, y.trace, Release(id.value), {}, demand);
      }
    }
  }

  lemma TrimmingLeavesDemand(streams: seq<ConfiguredStream>, recording: bool, replay: bool, x: EncoderState)
    requires Numbered(streams)
    ensures var demand, y := Demand(Enabled(streams), recording, replay), Trimmed(streams, recording, replay, x);
            && y.verdicts == x.verdicts && Extends(x.trace, y.trace, {}, demand)
            && y.active == x.active - (Ids(Enabled(streams)) - demand)
  {
    hide Enabled, Demand, ReleasedUpTo, Rank, Extends;
    RankEnds(streams);
    ReleasingLeavesDemand(streams, recording, replay, x, |streams|);
  }

  // ---- and in any configuration

  /** The lookup of a stream can only find one that needs no more than the stream itself. */
  ghost predicate LookupsAreModest(streams: seq<ConfiguredStream>) {
    forall i, consumer :: 0 <= i < |streams| && CaptureIdOf(streams, streams[i].identity).Some? ==>
      var e, k := Enabled(streams), CaptureIdOf(streams, streams[i].identity).value;
      k < |e| && StreamParticipates(e[k].mode, consumer) ==> StreamParticipates(streams[i].mode, consumer)
  }

  /** The release pass never stops a demanded encoder. */
  ghost predicate ReleaseIsSafe(streams: seq<ConfiguredStream>) {
    forall recording, replay, x: EncoderState :: Demand(Enabled(streams), recording, replay) <= x.active ==>
      Demand(Enabled(streams), recording, replay) <= Trimmed(streams, recording, replay, x).active
  }

  lemma {:induction false} ReleasedExactly(streams: seq<ConfiguredStream>, recording: bool, replay: bool,
                                           x: EncoderState, n: nat)
    requires n <= |streams|
    ensures var y := ReleasedUpTo(streams, recording, replay, x, n);
            forall k :: k in y.active <==> k in x.active && forall i ::
              0 <= i < n && CaptureIdOf(streams, streams[i].identity) == Some(k) ==>
              StreamNeedsEncoder(streams[i].mode, recording, replay)
  {
    hide CaptureIdOf, StreamNeedsEncoder;
    if n > 0 {
      ReleasedExactly(streams, recording, replay, x, n - 1);
    }
  }

  /** With any identities, the release pass is safe exactly if no lookup finds a stream that needs more. */
  lemma ReleaseIsSafeExactly(streams: seq<ConfiguredStream>)
    ensures ReleaseIsSafe(streams) <==> LookupsAreModest(streams)
  {
    hide Enabled, CaptureIdOf, ReleasedUpTo;
    var e, n := Enabled(streams), |streams|;
    if LookupsAreModest(streams) {
      forall recording, replay, x: EncoderState | Demand(e, recording, replay) <= x.active
        ensures Demand(e, recording, replay) <= Trimmed(streams, recording, replay, x).active
      {
        ReleasedExactly(streams, recording, replay, x, n);
      }
    }
    if ReleaseIsSafe(streams) {
      forall i, consumer | 0 <= i < n && CaptureIdOf(streams, streams[i].identity).Some?
        ensures var k := CaptureIdOf(streams, streams[i].identity).value;
                k < |e| && StreamParticipates(e[k].mode, consumer) ==> StreamParticipates(streams[i].mode, consumer)
      {
        var recording, replay := consumer.Recording?, consumer.Replay?;
        var demand := Demand(e, recording, replay);
        ReleasedExactly(streams, recording, replay, EncoderState(demand, [], []), n);
        assert demand <= Trimmed(streams, recording, replay, EncoderState(demand, [], [])).active;
      }
    }
  }

  lemma StoppedByLookup(streams: seq<ConfiguredStream>, recording: bool, replay: bool, x: EncoderState, i: nat, k: nat)
    requires i < |streams| && CaptureIdOf(streams, streams[i].identity) == Some(k)
    requires !StreamNeedsEncoder(streams[i].mode, recording, replay)
    ensures k !in Trimmed(streams, recording, replay, x).active
  {
    hide CaptureIdOf, StreamNeedsEncoder, ReleasedUpTo;
    ReleasedExactly(streams, recording, replay, x, |streams|);
  }

  /** A disabled stream that shares the identity of a running one: the release pass stops the demanded encoder. */
  lemma SharedIdentityStopsEncoder(streams: seq<ConfiguredStream>, replay: bool, x: EncoderState)
    requires |streams| == 2 && streams[0].identity == streams[1].identity
    requires streams[0].mode.Both? && streams[1].mode.Disabled? && 0 in x.active
    ensures 0 in Demand(Enabled(streams), true, replay) && 0 !in Trimmed(streams, true, replay, x).active
  {
    hide Enabled, CaptureIdOf, Trimmed;
    SharedLookup(streams);
    StoppedByLookup(streams, true, replay, x, 1, 0);
  }

  lemma SharedLookup(streams: seq<ConfiguredStream>)
    requires |streams| == 2 && streams[0].identity == streams[1].identity
    requires !streams[0].mode.Disabled? && streams[1].mode.Disabled?
    ensures CaptureIdOf(streams, streams[1].identity) == Some(0)
    ensures |Enabled(streams)| == 1 && Enabled(streams)[0] == streams[0]
  {
    hide Enabled, IndexOf;
    NoneEnabled();
    EnabledSnoc(streams, 0);
    EnabledSnoc(streams, 1);
    assert streams[..0] == [] && streams[..2] == streams;
    var e := Enabled(streams);
    assert e[0].identity == streams[1].identity;
  }
}
