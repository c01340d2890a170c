/** Stream participation and the dense capture numbering. A capture id is a byte: counters wrap at 256. */
module CaptureConfiguration {
  import opened Packets

  datatype StreamParticipationMode = Disabled | RecordingOnly | ReplayOnly | Both

  datatype CaptureConsumer = Recording | Replay

  datatype StreamIdentity = Master | Scene(uuid: string)

  datatype PacketStreamConfig = PacketStreamConfig(width: nat, height: nat, tbNum: int, tbDen: int)

  datatype ConfiguredStream =
    ConfiguredStream(identity: StreamIdentity, name: string, mode: StreamParticipationMode, config: PacketStreamConfig)

  const ID_COUNT: nat := 256

  predicate StreamParticipates(mode: StreamParticipationMode, consumer: CaptureConsumer) {
    match mode
    case Disabled => false
    case RecordingOnly => consumer.Recording?
    case ReplayOnly => consumer.Replay?
    case Both => true
  }

  predicate StreamNeedsEncoder(mode: StreamParticipationMode, recording: bool, replay: bool) {
    (recording && StreamParticipates(mode, Recording)) || (replay && StreamParticipates(mode, Replay))
  }

  /** The streams that take part in capture, in configuration order. */
  function Enabled(streams: seq<ConfiguredStream>): seq<ConfiguredStream> {
    if |streams| == 0 then []
    else
      var last := streams[|streams| - 1];
      Enabled(streams[..|streams| - 1]) + (if last.mode.Disabled? then [] else [last])
  }

  /** The position of the first stream with the identity, or the length. */
  function IndexOf(e: seq<ConfiguredStream>, identity: StreamIdentity): (k: nat)
    ensures k <= |e| && (k < |e| ==> e[k].identity == identity)
    ensures forall j :: 0 <= j < k ==> e[j].identity != identity
  {
    if |e| == 0 then 0
    else
      var n := |e| - 1;
      var k := IndexOf(e[..n], identity);
      if k < n || e[n].identity == identity then k else n + 1
  }

  function CaptureIdOf(streams: seq<ConfiguredStream>, identity: StreamIdentity): Option<nat> {
    var e := Enabled(streams);
    var k := IndexOf(e, identity);
    if k == |e| then None else Some(k % ID_COUNT)
  }

  /** The positions, among the enabled streams, of those a consumer takes. */
  function Taken(e: seq<ConfiguredStream>, consumer: CaptureConsumer): (t: seq<nat>)
    ensures forall i :: 0 <= i < |t| ==> t[i] < |e| && StreamParticipates(e[t[i]].mode, consumer)
  {
    if |e| == 0 then []
    else
      var n := |e| - 1;
      Taken(e[..n], consumer) + (if StreamParticipates(e[n].mode, consumer) then [n] else [])
  }

  /** No stream shares the identity of an enabled one. */
  ghost predicate EnabledDistinct(streams: seq<ConfiguredStream>) {
    forall i, j :: 0 <= i < j < |streams| && !(streams[i].mode.Disabled? && streams[j].mode.Disabled?) ==>
      streams[i].identity != streams[j].identity
  }

  /** The number of enabled streams before position `i`. */
  ghost function Rank(streams: seq<ConfiguredStream>, i: nat): nat
    requires i <= |streams|
  {
    |Enabled(streams[..i])|
  }

  /** Looking a stream up by its identity gives its own rank, or nothing if it is disabled. */
  ghost predicate LookupsAgree(streams: seq<ConfiguredStream>) {
    forall i :: 0 <= i < |streams| ==>
      CaptureIdOf(streams, streams[i].identity) == if streams[i].mode.Disabled? then None else Some(Rank(streams, i))
  }

  /** The ids whose encoders must run. */
  ghost function Demand(e: seq<ConfiguredStream>, recording: bool, replay: bool): set<nat> {
    set k: nat | k < |e| && StreamNeedsEncoder(e[k].mode, recording, replay)
  }

  // ---- the enabled streams

  lemma EnabledSnoc(streams: seq<ConfiguredStream>, i: nat)
    requires i < |streams|
    ensures Enabled(streams[..i + 1]) ==
            if streams[i].mode.Disabled? then Enabled(streams[..i]) else Enabled(streams[..i]) + [streams[i]]
  {
    assert streams[..i + 1][..i] == streams[..i];
    assert Enabled(streams[..i]) + [] == Enabled(streams[..i]);
  }

  /** The numbers given out so far are final. */
  lemma {:induction false} EnabledPrefix(streams: seq<ConfiguredStream>, i: nat, j: nat)
    requires i <= j <= |streams|
    ensures Enabled(streams[..i]) <= Enabled(streams[..j])
  {
    if i < j {
      EnabledPrefix(streams, i, j - 1);
      EnabledSnoc(streams, j - 1);
    }
  }

  /** An enabled stream stands at the position counted up to it. */
  lemma EnabledAt(streams: seq<ConfiguredStream>, i: nat)
    requires i < |streams| && !streams[i].mode.Disabled?
    ensures var k, e := |Enabled(streams[..i])|, Enabled(streams); k < |e| && e[k] == streams[i]
  {
    hide Enabled;
    EnabledSnoc(streams, i);
    EnabledPrefix(streams, i + 1, |streams|);
    assert streams[..|streams|] == streams;
    assert Enabled(streams[..i + 1])[|Enabled(streams[..i])|] == streams[i];
  }

  lemma {:induction false} EnabledFrom(streams: seq<ConfiguredStream>, k: nat) returns (i: nat)
    requires k < |Enabled(streams)|
    ensures i < |streams| && !streams[i].mode.Disabled? && |Enabled(streams[..i])| == k
    ensures streams[i] == Enabled(streams)[k]
  {
    var n := |streams| - 1;
    if k < |Enabled(streams[..n])| {
      i := EnabledFrom(streams[..n], k);
      assert streams[..n][..i] == streams[..i];
    } else {
      i := n;
    }
  }

  lemma EnabledOrder(streams: seq<ConfiguredStream>, i: nat, j: nat)
    requires i < j <= |streams| && !streams[i].mode.Disabled?
    ensures |Enabled(streams[..i])| < |Enabled(streams[..j])|
  {
    hide Enabled;
    EnabledSnoc(streams, i);
    EnabledPrefix(streams, i + 1, j);
  }

  lemma DistinctEnabled(streams: seq<ConfiguredStream>)
    requires EnabledDistinct(streams)
    ensures var e := Enabled(streams); forall k, l :: 0 <= k < l < |e| ==> e[k].identity != e[l].identity
  {
    hide Enabled;
    var e := Enabled(streams);
    forall k, l | 0 <= k < l < |e| ensures e[k].identity != e[l].identity {
      var i := EnabledFrom(streams, k);
      var j := EnabledFrom(streams, l);
      if j < i {
        EnabledOrder(streams, j, i);
      }
    }
  }

  /** A disabled stream has no capture id. */
  lemma DisabledHasNoId(streams: seq<ConfiguredStream>, i: nat)
    requires EnabledDistinct(streams) && i < |streams| && streams[i].mode.Disabled?
    ensures CaptureIdOf(streams, streams[i].identity).None?
  {
    hide Enabled;
    var e := Enabled(streams);
    var k := IndexOf(e, streams[i].identity);
    if k < |e| {
      var j := EnabledFrom(streams, k);
    }
  }

  lemma EnabledHasId(streams: seq<ConfiguredStream>, k: nat)
    requires EnabledDistinct(streams) && k < |Enabled(streams)| < ID_COUNT
    ensures CaptureIdOf(streams, Enabled(streams)[k].identity) == Some(k)
  {
    hide Enabled;
    DistinctEnabled(streams);
  }

  /** In a numbered configuration, an enabled stream has its rank as id and a disabled one has none. */
  lemma IdAt(streams: seq<ConfiguredStream>, i: nat)
    requires EnabledDistinct(streams) && |Enabled(streams)| < ID_COUNT && i < |streams|
    ensures CaptureIdOf(streams, streams[i].identity) ==
            if streams[i].mode.Disabled? then None else Some(Rank(streams, i))
    ensures Rank(streams, i + 1) == Rank(streams, i) + if streams[i].mode.Disabled? then 0 else 1
    ensures Rank(streams, i + 1) <= |Enabled(streams)|
    ensures !streams[i].mode.Disabled? ==> Enabled(streams)[Rank(streams, i)] == streams[i]
  {
    hide Enabled, CaptureIdOf;
    EnabledSnoc(streams, i);
    EnabledPrefix(streams, i + 1, |streams|);
    assert streams[..|streams|] == streams;
    if streams[i].mode.Disabled? {
      DisabledHasNoId(streams, i);
    } else {
      EnabledAt(streams, i);
      EnabledHasId(streams, Rank(streams, i));
    }
  }

  lemma RankEnds(streams: seq<ConfiguredStream>)
    ensures Rank(streams, 0) == 0 && Rank(streams, |streams|) == |Enabled(streams)|
  {
    assert streams[..|streams|] == streams;
  }

  /** Every lookup agrees with the rank exactly if no stream shares the identity of an enabled one. */
  lemma LookupsAgreeExactly(streams: seq<ConfiguredStream>)
    requires |Enabled(streams)| < ID_COUNT
    ensures LookupsAgree(streams) <==> EnabledDistinct(streams)
  {
    hide Enabled, CaptureIdOf;
    if EnabledDistinct(streams) {
      forall i | 0 <= i < |streams|
        ensures CaptureIdOf(streams, streams[i].identity) ==
                if streams[i].mode.Disabled? then None else Some(Rank(streams, i))
      {
        IdAt(streams, i);
      }
    }
    if LookupsAgree(streams) {
      forall i, j | 0 <= i < j < |streams| && !(streams[i].mode.Disabled? && streams[j].mode.Disabled?)
        ensures streams[i].identity != streams[j].identity
      {
        if !streams[i].mode.Disabled? {
          EnabledOrder(streams, i, j);
        }
      }
    }
  }

  lemma {:induction false} TakenOnce(e: seq<ConfiguredStream>, consumer: CaptureConsumer)
    ensures forall i, j :: 0 <= i < j < |Taken(e, consumer)| ==> Taken(e, consumer)[i] < Taken(e, consumer)[j]
    ensures forall k :: 0 <= k < |e| && StreamParticipates(e[k].mode, consumer) ==> k in Taken(e, consumer)
  {
    if |e| > 0 {
      var n := |e| - 1;
      TakenOnce(e[..n], consumer);
      forall k | 0 <= k < |e| && StreamParticipates(e[k].mode, consumer) ensures k in Taken(e, consumer) {
        if k < n {
          assert e[..n][k] == e[k];
        }
      }
    }
  }

  lemma TakenSnoc(e: seq<ConfiguredStream>, s: ConfiguredStream, consumer: CaptureConsumer)
    ensures Taken(e + [s], consumer) ==
            if StreamParticipates(s.mode, consumer) then Taken(e, consumer) + [|e|] else Taken(e, consumer)
  {
    assert Taken(e, consumer) + [] == Taken(e, consumer);
    assert (e + [s])[..|e|] == e;
  }

  lemma IndexSnoc(e: seq<ConfiguredStream>, s: ConfiguredStream, identity: StreamIdentity)
    ensures IndexOf(e + [s], identity) ==
            if IndexOf(e, identity) < |e| || s.identity == identity then IndexOf(e, identity) else |e| + 1
  {
    assert (e + [s])[..|e|] == e;
  }

  lemma IndexStable(e: seq<ConfiguredStream>, f: seq<ConfiguredStream>, identity: StreamIdentity)
    requires e <= f && IndexOf(e, identity) < |e|
    ensures IndexOf(f, identity) == IndexOf(e, identity)
  {
    var k := IndexOf(e, identity);
    assert f[k] == e[k];
    forall j | 0 <= j < k ensures f[j].identity != identity {
      assert f[j] == e[j];
    }
  }

  // ---- the functions as the program runs them

  method SelectedStreamIndexes(streams: seq<ConfiguredStream>, consumer: CaptureConsumer) returns (indexes: seq<nat>)
    ensures indexes == Taken(streams, consumer)
  {
    indexes := [];
    for i := 0 to |streams|
      invariant indexes == Taken(streams[..i], consumer)
    {
      assert streams[..i + 1] == streams[..i] + [streams[i]];
      TakenSnoc(streams[..i], streams[i], consumer);
      if StreamParticipates(streams[i].mode, consumer) {
        indexes := indexes + [i];
      }
    }
    assert streams[..|streams|] == streams;
  }

  lemma FoundAt(streams: seq<ConfiguredStream>, i: nat, identity: StreamIdentity)
    requires i < |streams| && !streams[i].mode.Disabled? && streams[i].identity == identity
    requires IndexOf(Enabled(streams[..i]), identity) == |Enabled(streams[..i])|
    ensures CaptureIdOf(streams, identity) == Some(|Enabled(streams[..i])| % ID_COUNT)
  {
    hide Enabled, IndexOf;
    EnabledSnoc(streams, i);
    IndexSnoc(Enabled(streams[..i]), streams[i], identity);
    EnabledPrefix(streams, i + 1, |streams|);
    assert streams[..|streams|] == streams;
    IndexStable(Enabled(streams[..i + 1]), Enabled(streams), identity);
  }

  lemma NotFound(streams: seq<ConfiguredStream>, identity: StreamIdentity)
    requires IndexOf(Enabled(streams[..|streams|]), identity) == |Enabled(streams[..|streams|])|
    ensures CaptureIdOf(streams, identity).None?
  {
    assert streams[..|streams|] == streams;
  }

  method CaptureIdFor(streams: seq<ConfiguredStream>, identity: StreamIdentity) returns (id: Option<nat>)
    ensures id == CaptureIdOf(streams, identity)
  {
    hide Enabled, IndexOf, CaptureIdOf;
    var captureId := 0;
    NoneEnabled();
    for i := 0 to |streams|
      invariant captureId == |Enabled(streams[..i])| % ID_COUNT
      invariant IndexOf(Enabled(streams[..i]), identity) == |Enabled(streams[..i])|
    {
      EnabledSnoc(streams, i);
      if streams[i].mode.Disabled? {
        continue;
      }
      IndexSnoc(Enabled(streams[..i]), streams[i], identity);
      if streams[i].identity == identity {
        FoundAt(streams, i, identity);
        return Some(captureId);
      }
      captureId := (captureId + 1) % ID_COUNT;
    }
    NotFound(streams, identity);
    return None;
  }

  lemma NoneEnabled()
    ensures Enabled([]) == []
  {
  }

  function Wrapped(t: seq<nat>): (ids: seq<nat>)
    ensures |ids| == |t| && forall i :: 0 <= i < |t| ==> ids[i] == t[i] % ID_COUNT
  {
    seq(|t|, i requires 0 <= i < |t| => t[i] % ID_COUNT)
  }

  lemma WrappedSnoc(t: seq<nat>, k: nat)
    ensures Wrapped(t + [k]) == Wrapped(t) + [k % ID_COUNT]
  {
  }

  method SelectedCaptureIds(streams: seq<ConfiguredStream>, consumer: CaptureConsumer) returns (ids: seq<nat>)
    ensures ids == Wrapped(Taken(Enabled(streams), consumer))
  {
    hide Enabled, Taken, Wrapped;
    ids := [];
    var captureId := 0;
    NoneEnabled();
    NoneTaken(consumer);
    for i := 0 to |streams|
      invariant captureId == |Enabled(streams[..i])| % ID_COUNT
      invariant ids == Wrapped(Taken(Enabled(streams[..i]), consumer))
    {
      EnabledSnoc(streams, i);
      if streams[i].mode.Disabled? {
        continue;
      }
      TakenSnoc(Enabled(streams[..i]), streams[i], consumer);
      WrappedSnoc(Taken(Enabled(streams[..i]), consumer), |Enabled(streams[..i])|);
      if StreamParticipates(streams[i].mode, consumer) {
        ids := ids + [captureId];
      }
      captureId := (captureId + 1) % ID_COUNT;
    }
    assert streams[..|streams|] == streams;
  }

  lemma NoneTaken(consumer: CaptureConsumer)
    ensures Taken([], consumer) == []
  {
  }

  function ConfigsAt(e: seq<ConfiguredStream>, t: seq<nat>): (configs: seq<PacketStreamConfig>)
    requires forall i :: 0 <= i < |t| ==> t[i] < |e|
    ensures |configs| == |t| && forall i :: 0 <= i < |t| ==> configs[i] == e[t[i]].config
  {
    seq(|t|, i requires 0 <= i < |t| => e[t[i]].config)
  }

  lemma ConfigsSnoc(e: seq<ConfiguredStream>, s: ConfiguredStream, consumer: CaptureConsumer)
    ensures var configs := ConfigsAt(e, Taken(e, consumer));
            ConfigsAt(e + [s], Taken(e + [s], consumer)) ==
            if StreamParticipates(s.mode, consumer) then configs + [s.config] else configs
  {
    hide Taken;
    TakenSnoc(e, s, consumer);
  }

  method SelectedPacketConfigs(streams: seq<ConfiguredStream>, consumer: CaptureConsumer)
    returns (configs: seq<PacketStreamConfig>)
    ensures configs == ConfigsAt(Enabled(streams), Taken(Enabled(streams), consumer))
  {
    hide Enabled, Taken, ConfigsAt;
    configs := [];
    NoneEnabled();
    NoneTaken(consumer);
    for i := 0 to |streams|
      invariant configs == ConfigsAt(Enabled(streams[..i]), Taken(Enabled(streams[..i]), consumer))
    {
      EnabledSnoc(streams, i);
      ConfigsSnoc(Enabled(streams[..i]), streams[i], consumer);
      if StreamParticipates(streams[i].mode, consumer) {
        configs := configs + [streams[i].config];
      }
    }
    assert streams[..|streams|] == streams;
  }

  /** The agreement of the numberings: with distinct identities and at most 255 enabled streams, position by position
      the ids and the configurations selected for a consumer belong to one stream, and that stream's own id is the
      selected one. */
  lemma NumberingAgrees(streams: seq<ConfiguredStream>, consumer: CaptureConsumer)
    requires EnabledDistinct(streams) && |Enabled(streams)| < ID_COUNT
    ensures var e := Enabled(streams);
            var t := Taken(e, consumer);
            var ids, configs := Wrapped(t), ConfigsAt(e, t);
            && |ids| == |configs|
            && (forall i, j :: 0 <= i < j < |ids| ==> ids[i] < ids[j] < |e|)
            && (forall i :: 0 <= i < |ids| ==>
                  configs[i] == e[ids[i]].config && CaptureIdOf(streams, e[ids[i]].identity) == Some(ids[i]))
            && (forall k :: 0 <= k < |e| ==> (k in ids <==> StreamParticipates(e[k].mode, consumer)))
  {
    hide Enabled, Taken, CaptureIdOf;
    var e := Enabled(streams);
    var t := Taken(e, consumer);
    TakenOnce(e, consumer);
    assert Wrapped(t) == t;
    forall i | 0 <= i < |t| ensures CaptureIdOf(streams, e[t[i]].identity) == Some(t[i]) {
      EnabledHasId(streams, t[i]);
    }
  }
}
