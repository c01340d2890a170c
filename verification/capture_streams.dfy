/** What the capture session knows about its streams and how it counts, over whole runs, in terms of the commands. */
module CaptureStreams {
  import opened Packets
  import opened CaptureRing
  import opened CaptureSession

  // ---- what a command is, seen from outside

  /** The command registers a stream under `id`. */
  ghost predicate RegistersAs(v: Ring, c: Command, id: nat) {
    && c.Register? && !v.running && c.name != "" && c.width > 0 && c.height > 0
    && c.id == id == |v.streams| && forall i :: 0 <= i < |v.streams| ==> v.streams[i].name != c.name
  }

  /** The packet is turned away: the session is stopped, the stream unknown, or the packet unusable. */
  ghost predicate TurnedAway(v: Ring, c: Command) {
    c.Ingest? &&
    (!v.running || c.id >= |v.streams| || c.packet.size == 0 || c.packet.tbNum <= 0 || c.packet.tbDen <= 0)
  }

  /** A usable packet whose CTS its stream holds already. */
  ghost predicate Repeats(v: Ring, c: Command) {
    && c.Ingest? && !TurnedAway(v, c)
    && exists q :: q in v.streams[c.id].packets && q.cts == c.packet.cts
  }

  ghost predicate Delivers(v: Ring, c: Command, id: nat) {
    c.Ingest? && c.id == id && !TurnedAway(v, c) && !Repeats(v, c)
  }

  // ---- one command

  /** What a command changes about a stream's name and configuration. */
  ghost predicate Configured(v: Ring, c: Command, s: StreamState, t: StreamState, id: nat) {
    && t.name == s.name
    && (t.header <==> s.header || (Delivers(v, c, id) && c.header))
    && (if (s.tbNum > 0 && s.tbDen > 0) || !Delivers(v, c, id) then t.tbNum == s.tbNum && t.tbDen == s.tbDen
        else t.tbNum == c.packet.tbNum && t.tbDen == c.packet.tbDen)
  }

  lemma StepConfigures(v: Ring, c: Command, v': Ring, id: nat)
    requires |v.accepted| == |v.streams| && Next(v, c, v') && id < |v.streams|
    ensures id < |v'.streams| && Configured(v, c, v.streams[id], v'.streams[id], id)
  {
    hide EvictedTo, Histories, Held, Count, StreamOk, Insert;
  }

  lemma StepAdds(v: Ring, c: Command, v': Ring)
    requires |v.accepted| == |v.streams| && Next(v, c, v')
    ensures |v.streams| <= |v'.streams| <= |v.streams| + 1
    ensures |v'.streams| == |v.streams| + 1 <==> RegistersAs(v, c, |v.streams|)
    ensures RegistersAs(v, c, |v.streams|) ==>
              var t := v'.streams[|v.streams|];
              t.name == c.name && t.tbNum == c.tbNum && t.tbDen == c.tbDen && !t.header
  {
    hide EvictedTo, Histories, Held, Count, StreamOk, Insert;
    if c.Register? && RegistersAs(v, c, |v.streams|) {
      assert forall s :: s in v.streams ==> s.name != c.name;
    }
  }

  // ---- whole runs

  ghost predicate DeliveredBetween(vs: seq<Ring>, cs: seq<Command>, j: nat, k: nat, id: nat)
    requires k <= |cs| < |vs|
  {
    exists i :: j < i < k && Delivers(vs[i], cs[i], id)
  }

  /** The stream was registered by command `j`. It has a header exactly if some packet delivered since then carried one.
      Its timebase is the registered one if that was usable, otherwise that of the first packet delivered. */
  ghost predicate KnownFrom(vs: seq<Ring>, cs: seq<Command>, j: nat, k: nat, id: nat)
    requires j < k <= |cs| < |vs| && cs[j].Register? && id < |vs[k].streams|
  {
    var s, c := vs[k].streams[id], cs[j];
    && s.name == c.name
    && (s.header <==> exists i :: j < i < k && Delivers(vs[i], cs[i], id) && cs[i].header)
    && (if (c.tbNum > 0 && c.tbDen > 0) || !DeliveredBetween(vs, cs, j, k, id) then
          s.tbNum == c.tbNum && s.tbDen == c.tbDen
        else
          exists i :: j < i < k && Delivers(vs[i], cs[i], id) && !DeliveredBetween(vs, cs, j, i, id)
                      && s.tbNum == cs[i].packet.tbNum && s.tbDen == cs[i].packet.tbDen)
  }

  lemma StepKnown(vs: seq<Ring>, cs: seq<Command>, j: nat, k: nat, id: nat)
    requires j < k < |cs| < |vs| && cs[j].Register? && id < |vs[k].streams| && KnownFrom(vs, cs, j, k, id)
    requires id < |vs[k + 1].streams| && Configured(vs[k], cs[k], vs[k].streams[id], vs[k + 1].streams[id], id)
    ensures KnownFrom(vs, cs, j, k + 1, id)
  {
    hide Delivers;
    DeliveryIsUsable(vs, cs, id);
    if Delivers(vs[k], cs[k], id) {
      assert DeliveredBetween(vs, cs, j, k + 1, id);
    } else {
      assert DeliveredBetween(vs, cs, j, k + 1, id) <==> DeliveredBetween(vs, cs, j, k, id);
    }
  }

  lemma DeliveryIsUsable(vs: seq<Ring>, cs: seq<Command>, id: nat)
    requires |cs| < |vs|
    ensures forall i :: 0 <= i < |cs| && Delivers(vs[i], cs[i], id) ==>
              cs[i].Ingest? && cs[i].packet.tbNum > 0 && cs[i].packet.tbDen > 0
  {
  }

  /** Every stream of every run is known exactly from the command that registered it and the packets delivered since. */
  lemma {:induction false} StreamsExactly(vs: seq<Ring>, cs: seq<Command>, k: nat, id: nat) returns (j: nat)
    requires Execution(vs, cs) && Initial(vs[0]) && k <= |cs| && id < |vs[k].streams|
    ensures j < k && RegistersAs(vs[j], cs[j], id) && KnownFrom(vs, cs, j, k, id)
  {
    hide Next, Delivers, RegistersAs, KnownFrom, Configured;
    assert Next(vs[k - 1], cs[k - 1], vs[k]);
    StepAdds(vs[k - 1], cs[k - 1], vs[k]);
    if id < |vs[k - 1].streams| {
      j := StreamsExactly(vs, cs, k - 1, id);
      RegisteredIsRegister(vs[j], cs[j], id);
      StepConfigures(vs[k - 1], cs[k - 1], vs[k], id);
      StepKnown(vs, cs, j, k - 1, id);
    } else {
      j := k - 1;
      JustRegistered(vs, cs, j, id);
    }
  }

  lemma RegisteredIsRegister(v: Ring, c: Command, id: nat)
    requires RegistersAs(v, c, id)
    ensures c.Register?
  {
  }

  lemma JustRegistered(vs: seq<Ring>, cs: seq<Command>, j: nat, id: nat)
    requires j < |cs| < |vs| && RegistersAs(vs[j], cs[j], id) && id < |vs[j + 1].streams|
    requires var t := vs[j + 1].streams[id];
             t.name == cs[j].name && t.tbNum == cs[j].tbNum && t.tbDen == cs[j].tbDen && !t.header
    ensures KnownFrom(vs, cs, j, j + 1, id)
  {
    hide Delivers;
  }

  // ---- the counters

  ghost function TurnedAwayCount(vs: seq<Ring>, cs: seq<Command>, k: nat): nat
    requires k <= |cs| < |vs|
  {
    if k == 0 then 0
    else TurnedAwayCount(vs, cs, k - 1) + if TurnedAway(vs[k - 1], cs[k - 1]) then 1 else 0
  }

  ghost function RepeatCount(vs: seq<Ring>, cs: seq<Command>, k: nat): nat
    requires k <= |cs| < |vs|
  {
    if k == 0 then 0 else RepeatCount(vs, cs, k - 1) + if Repeats(vs[k - 1], cs[k - 1]) then 1 else 0
  }

  lemma StepCounts(v: Ring, c: Command, v': Ring)
    requires |v.accepted| == |v.streams| && Next(v, c, v')
    ensures v'.rejected == v.rejected + if TurnedAway(v, c) then 1 else 0
    ensures v'.duplicates == v.duplicates + if Repeats(v, c) then 1 else 0
  {
    hide EvictedTo, Histories, Held, Count, StreamOk, Insert, Evicted;
  }

  /** Every packet turned away and every repetition is counted, and nothing else. */
  lemma {:induction false} CountersExactly(vs: seq<Ring>, cs: seq<Command>, k: nat)
    requires Execution(vs, cs) && Initial(vs[0]) && k <= |cs|
    ensures vs[k].rejected == TurnedAwayCount(vs, cs, k) && vs[k].duplicates == RepeatCount(vs, cs, k)
  {
    hide Next, TurnedAway, Repeats;
    if k > 0 {
      CountersExactly(vs, cs, k - 1);
      assert Next(vs[k - 1], cs[k - 1], vs[k]);
      StepCounts(vs[k - 1], cs[k - 1], vs[k]);
    }
  }

  // ---- the watermark

  /** The greatest CTS a stream has retained since retention was last switched off. */
  ghost predicate Newest(s: StreamState, accepted: seq<Packet>) {
    && (s.hasSourceCts <==> accepted != [])
    && (forall q :: q in accepted ==> q.cts <= s.maxSourceCts)
    && (accepted != [] ==> exists q :: q in accepted && q.cts == s.maxSourceCts)
    && (accepted == [] ==> s.maxSourceCts == 0)
  }

  ghost predicate AllNewest(v: Ring) {
    && |v.accepted| == |v.streams|
    && forall i :: 0 <= i < |v.streams| ==> Newest(v.streams[i], v.accepted[i])
  }

  lemma NewestGrows(s: StreamState, accepted: seq<Packet>, t: StreamState, p: Packet)
    requires Newest(s, accepted)
    requires t.hasSourceCts && t.maxSourceCts == if p.cts > s.maxSourceCts then p.cts else s.maxSourceCts
    ensures Newest(t, accepted + [p])
  {
    assert p in accepted + [p] && forall q :: q in accepted ==> q in accepted + [p];
  }

  /** Only the greatest CTS counts, and whether there is one. */
  lemma SameNewest(s: StreamState, t: StreamState, accepted: seq<Packet>)
    requires Newest(s, accepted) && t.hasSourceCts == s.hasSourceCts && t.maxSourceCts == s.maxSourceCts
    ensures Newest(t, accepted)
  {
  }

  lemma StepKeepsNewest(v: Ring, c: Command, v': Ring)
    requires AllNewest(v) && Next(v, c, v')
    ensures AllNewest(v')
  {
    hide EvictedTo, Histories, Held, Count, StreamOk, Insert, Repeats, Registrable, Newest, HasCts;
    var delivered := c.Ingest? && Accepts(v, c) && v.retention;
    NothingNewest();
    forall i | 0 <= i < |v'.streams| ensures Newest(v'.streams[i], v'.accepted[i]) {
      if delivered && i == c.id {
        NewestGrows(v.streams[i], v.accepted[i], v'.streams[i], c.packet);
      } else if i < |v.streams| && !(c.SetRetention? && !c.enabled) {
        SameNewest(v.streams[i], v'.streams[i], v.accepted[i]);
      }
    }
  }

  lemma NothingNewest()
    ensures forall s: StreamState :: !s.hasSourceCts && s.maxSourceCts == 0 ==> Newest(s, [])
  {
  }

  /** In every run: the common watermark is absent exactly if some stream, or the session, has nothing; otherwise it is
      the greatest CTS that every stream has reached. */
  lemma {:induction false} WatermarkExactly(vs: seq<Ring>, cs: seq<Command>, k: nat)
    requires Execution(vs, cs) && Initial(vs[0]) && k <= |cs|
    ensures AllNewest(vs[k])
    ensures var w, a := CommonWatermark(vs[k].streams), vs[k].accepted;
            && (w.None? <==> a == [] || exists i :: 0 <= i < |a| && a[i] == [])
            && (w.Some? ==>
                  && (forall i :: 0 <= i < |a| ==> exists q :: q in a[i] && q.cts >= w.value)
                  && (exists i :: 0 <= i < |a| && forall q :: q in a[i] ==> q.cts <= w.value))
  {
    hide Next, Newest;
    if k > 0 {
      WatermarkExactly(vs, cs, k - 1);
      assert Next(vs[k - 1], cs[k - 1], vs[k]);
      StepKeepsNewest(vs[k - 1], cs[k - 1], vs[k]);
    }
    WatermarkOf(vs[k]);
  }

  lemma WatermarkOf(v: Ring)
    requires AllNewest(v)
    ensures var w, a := CommonWatermark(v.streams), v.accepted;
            && (w.None? <==> a == [] || exists i :: 0 <= i < |a| && a[i] == [])
            && (w.Some? ==>
                  && (forall i :: 0 <= i < |a| ==> exists q :: q in a[i] && q.cts >= w.value)
                  && (exists i :: 0 <= i < |a| && forall q :: q in a[i] ==> q.cts <= w.value))
  {
    if CommonWatermark(v.streams).Some? {
      SlowestIs(v.streams);
      var i :| 0 <= i < |v.streams| && v.streams[i].maxSourceCts == Slowest(v.streams);
      assert Newest(v.streams[i], v.accepted[i]);
    }
  }

  lemma {:induction false} SlowestIs(streams: seq<StreamState>)
    requires |streams| > 0
    ensures forall i :: 0 <= i < |streams| ==> Slowest(streams) <= streams[i].maxSourceCts
    ensures exists i :: 0 <= i < |streams| && streams[i].maxSourceCts == Slowest(streams)
  {
    var n := |streams| - 1;
    if n > 0 {
      var init := streams[..n];
      SlowestIs(init);
      var j :| 0 <= j < n && init[j].maxSourceCts == Slowest(init);
      assert streams[j] == init[j] && forall i :: 0 <= i < n ==> streams[i] == init[i];
      assert Slowest(streams) == streams[j].maxSourceCts || Slowest(streams) == streams[n].maxSourceCts;
    } else {
      assert streams[0].maxSourceCts == Slowest(streams);
    }
  }
}
