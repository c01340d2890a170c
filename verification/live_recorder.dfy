/** The live recording consumer as the program runs it. A method is one atomic region: a producer's `OnPacket`,
    the controller's `Stop`, or one turn of the worker loop. Writers are owned values. */
module LiveRecorder {
  import opened Packets
  import opened MkvWriter
  import opened LiveRecorderModel
  import opened LiveRecorderSchedule
  import opened LiveRecorderOutcome

  method PickLeast(keys: set<nat>) returns (m: nat)
    requires keys != {}
    ensures m == Least(keys)
  {
    m :| m in keys;
    var rest := keys - {m};
    while rest != {}
      invariant rest <= keys && m in keys && forall k :: k in keys ==> k in rest || m <= k
      decreases |rest|
    {
      var k :| k in rest;
      if k < m {
        m := k;
      }
      rest := rest - {k};
    }
    LeastIs(keys, m);
  }

  class SynchronizedRecordingConsumer {
    const streamIds: seq<nat>
    var streamConfigs: seq<StreamConfig>
    var queue: seq<Item>
    var pending: seq<map<nat, Packet>>
    var writers: seq<Writer>
    var dtsOrigins: seq<int>
    var running: bool
    var stopRequested: bool
    var started: bool
    var rangeStart: nat
    var rangeEnd: nat
    var packetCount: nat
    var error: Option<Reason>
    var result: Option<Outcome>
    ghost var older: seq<set<Packet>>
    ghost var repeated: seq<set<Packet>>

    ghost function CoreView(): Core
      reads this
    {
      Core(pending, streamConfigs, writers, dtsOrigins, started, rangeStart, rangeEnd, packetCount, error, older,
           repeated)
    }

    ghost function View(): Recorder
      reads this
    {
      Recorder(CoreView(), queue, running, stopRequested, result)
    }

    /** While the worker runs, the result shows exactly the failure. */
    ghost predicate Valid()
      reads this
    {
      CoreView().Shaped() && |streamIds| == |pending| && (running ==> result == Failure(error))
    }

    /** The first failure is reported at once. */
    method Fail(reason: Reason)
      requires running && error.None?
      modifies `error, `result
      ensures error == Some(reason) && result == Failure(error)
    {
      error := Some(reason);
      result := Some(Reported(reason));
    }

    /** The consumer after a successful start. */
    constructor (streamConfigs: seq<StreamConfig>, streamIds: seq<nat>, libraryBudgets: seq<nat>, tick: Timebase)
      requires |streamConfigs| == |streamIds| == |libraryBudgets| > 0
      ensures Valid() && Blank(CoreView()) && View() == Recorder(CoreView(), [], true, false, None)
      ensures this.streamConfigs == streamConfigs && this.streamIds == streamIds
      ensures forall i :: 0 <= i < |writers| ==>
                writers[i] == Writer(false, 0, 0, None, None, None, 0, [], None, libraryBudgets[i], tick)
    {
      this.streamConfigs, this.streamIds, queue := streamConfigs, streamIds, [];
      pending := seq(|streamConfigs|, i => map[]);
      writers := seq(|streamConfigs|, i requires 0 <= i < |streamConfigs| =>
        Writer(false, 0, 0, None, None, None, 0, [], None, libraryBudgets[i], tick));
      dtsOrigins := seq(|streamConfigs|, i => 0);
      older, repeated := seq(|streamConfigs|, i => {}), seq(|streamConfigs|, i => {});
      running, stopRequested, started, rangeStart, rangeEnd, packetCount := true, false, false, 0, 0, 0;
      error, result := None, None;
    }

    method LocalStreamIndex(streamId: nat) returns (index: nat)
      requires Valid()
      ensures index <= |streamIds| && streamId !in streamIds[..index]
      ensures index < |streamIds| ==> streamIds[index] == streamId
    {
      index := 0;
      while index < |streamIds| && streamIds[index] != streamId
        invariant 0 <= index <= |streamIds| && streamId !in streamIds[..index]
      {
        index := index + 1;
      }
    }

    method OnPacket(streamId: nat, packet: Packet, header: bool) returns (ghost index: nat)
      requires Valid()
      modifies this
      ensures Valid()
      ensures index <= |streamIds| && streamId !in streamIds[..index]
      ensures index < |streamIds| ==> streamIds[index] == streamId
      ensures View() == Enqueued(old(View()), Item(index, packet, header))
    {
      var local := LocalStreamIndex(streamId);
      index := local;
      if !running || stopRequested || error.Some? || local == |streamIds| {
        return;
      }
      if |queue| >= MAX_QUEUE_PACKETS {
        Fail(QueueOverflow);
        return;
      }
      queue := queue + [Item(local, packet, header)];
    }

    method Stop()
      requires Valid()
      modifies this
      ensures Valid() && View() == Stepped(old(View()), LiveRecorderModel.Stop)
    {
      if !running {
        return;
      }
      stopRequested := true;
    }

    /** Puts a packet into its pending map unless its CTS is there already. */
    method Receive(item: Item)
      requires Valid()
      modifies this
      ensures Valid() && CoreView() == Inserted(old(CoreView()), item)
      ensures queue == old(queue) && running == old(running) && stopRequested == old(stopRequested)
    {
      if item.stream >= |pending| {
        return;
      }
      if item.packet.cts in pending[item.stream] {
        repeated := repeated[item.stream := repeated[item.stream] + {item.packet}];
        return;
      }
      if !streamConfigs[item.stream].header && item.header {
        streamConfigs := streamConfigs[item.stream := streamConfigs[item.stream].(header := true)];
      }
      pending := pending[item.stream := Put(pending[item.stream], item.packet)];
    }

    method PendingCount() returns (count: nat)
      requires Valid()
      ensures count == Total(pending)
    {
      count := 0;
      for i := 0 to |pending|
        invariant count == Total(pending[..i])
      {
        assert pending[..i + 1][..i] == pending[..i];
        count := count + |pending[i]|;
      }
      assert pending[..|pending|] == pending;
    }

    method IsCommonKey(c: nat) returns (common: bool)
      requires Valid()
      ensures common <==> KeyInAll(pending, c)
    {
      common := true;
      for i := 0 to |pending|
        invariant common <==> forall j :: 0 <= j < i ==> c in pending[j] && pending[j][c].keyframe
      {
        common := common && c in pending[i] && pending[i][c].keyframe;
      }
    }

    method EstablishCommonStart() returns (ok: bool)
      requires Valid() && running && error.None?
      modifies this
      ensures Valid()
      ensures CoreView() == if old(started) then old(CoreView()) else Elected(old(CoreView()))
      ensures ok <==> started
      ensures queue == old(queue) && running == old(running) && stopRequested == old(stopRequested)
    {
      if started || |pending| == 0 {
        return started;
      }
      var remaining := pending[0].Keys;
      while remaining != {}
        invariant Valid() && View() == old(View())
        invariant remaining <= pending[0].Keys
        invariant forall k :: k in pending[0].Keys - remaining ==> !KeyInAll(pending, k)
        decreases |remaining|
      {
        var c := PickLeast(remaining);
        var common := IsCommonKey(c);
        if common {
          assert c in CommonKeys(pending);
          LeastIs(CommonKeys(pending), c);
          OpenAt(c);
          return started;
        }
        remaining := remaining - {c};
      }
      assert CommonKeys(pending) == {};
      return false;
    }

    method OpenAt(c: nat)
      requires Valid() && running && error.None? && !started && KeyInAll(pending, c)
      modifies this
      ensures Valid() && InAll(Trimmed(old(CoreView()), c).pending, c)
      ensures CoreView() == OpenedFrom(Trimmed(old(CoreView()), c), c, 0)
      ensures queue == old(queue) && running == old(running) && stopRequested == old(stopRequested)
    {
      TrimmedHasStart(CoreView(), c);
      ghost var t := Trimmed(CoreView(), c);
      Trim(c);
      for i := 0 to |pending|
        invariant Valid() && error.None? && !started && InAll(pending, c)
        invariant OpenedFrom(CoreView(), c, i) == OpenedFrom(t, c, 0)
        invariant queue == old(queue) && running == old(running) && stopRequested == old(stopRequested)
      {
        var isOpen := OpenOne(c, i);
        if !isOpen {
          return;
        }
      }
      started := true;
    }

    /** Drops what is older than the start. */
    method Trim(c: nat)
      requires Valid()
      modifies this
      ensures Valid() && CoreView() == Trimmed(old(CoreView()), c)
      ensures queue == old(queue) && running == old(running) && stopRequested == old(stopRequested)
    {
      ghost var t := Trimmed(CoreView(), c);
      older := t.older;
      rangeStart := c;
      var all := pending;
      pending := seq(|all|, i requires 0 <= i < |all| => AtOrAbove(all[i], c));
    }

    method OpenOne(c: nat, i: nat) returns (ok: bool)
      requires Valid() && running && error.None? && !started && i < |pending| && InAll(pending, c)
      modifies this
      ensures Valid() && !started && InAll(pending, c) && |pending| == |old(pending)|
      ensures ok <==> error.None?
      ensures OpenedFrom(old(CoreView()), c, i) == if ok then OpenedFrom(CoreView(), c, i + 1) else CoreView()
      ensures queue == old(queue) && running == old(running) && stopRequested == old(stopRequested)
    {
      if !Opens(writers[i], streamConfigs[i]) {
        Fail(OpenFailed);
        return false;
      }
      writers := writers[i := OpenedWriter(writers[i])];
      dtsOrigins := dtsOrigins[i := pending[i][c].dts];
      return true;
    }

    method HasInAll(c: nat) returns (all: bool)
      requires Valid()
      ensures all <==> InAll(pending, c)
    {
      for i := 0 to |pending|
        invariant forall j :: 0 <= j < i ==> c in pending[j]
      {
        if c !in pending[i] {
          return false;
        }
      }
      return true;
    }

    method FlushCommonPrefix() returns (ok: bool)
      requires Valid() && running && error.None? && started
      modifies this
      ensures Valid() && CoreView() == Flushed(old(CoreView()))
      ensures ok <==> error.None?
      ensures queue == old(queue) && running == old(running) && stopRequested == old(stopRequested)
    {
      while true
        invariant Valid() && error.None? && started
        invariant Flushed(CoreView()) == Flushed(old(CoreView()))
        invariant queue == old(queue) && running == old(running) && stopRequested == old(stopRequested)
        decreases Backlog(pending)
      {
        if |pending| == 0 || pending[0].Keys == {} {
          return true;
        }
        var c := PickLeast(pending[0].Keys);
        var all := HasInAll(c);
        if !all {
          return true;
        }
        ghost var before := CoreView();
        RoundShrinks(before, c);
        RoundKeepsStart(before, c, 0);
        ok := WriteRound(c);
        if !ok {
          return false;
        }
      }
    }

    /** Writes one CTS to every stream. */
    method WriteRound(c: nat) returns (ok: bool)
      requires Valid() && running && error.None? && InAll(pending, c)
      modifies this
      ensures Valid() && CoreView() == RoundFrom(old(CoreView()), c, 0)
      ensures ok <==> error.None?
      ensures queue == old(queue) && running == old(running) && stopRequested == old(stopRequested)
    {
      hide Written, Output;
      ghost var before := CoreView();
      for i := 0 to |pending|
        invariant Valid() && error.None? && |pending| == |old(pending)|
        invariant forall j :: i <= j < |pending| ==> c in pending[j]
        invariant RoundFrom(CoreView(), c, i) == RoundFrom(before, c, 0)
        invariant queue == old(queue) && running == old(running) && stopRequested == old(stopRequested)
      {
        ok := WriteOne(c, i);
        if !ok {
          return;
        }
      }
      rangeEnd, packetCount := c, packetCount + 1;
      return true;
    }

    /** One stream's part of a round. */
    method WriteOne(c: nat, i: nat) returns (ok: bool)
      requires Valid() && running && error.None? && i < |pending| && forall j :: i <= j < |pending| ==> c in pending[j]
      modifies this
      ensures Valid() && |pending| == |old(pending)|
      ensures ok <==> error.None?
      ensures ok ==> forall j :: i < j < |pending| ==> c in pending[j]
      ensures RoundFrom(old(CoreView()), c, i) == if ok then RoundFrom(CoreView(), c, i + 1) else CoreView()
      ensures queue == old(queue) && running == old(running) && stopRequested == old(stopRequested)
    {
      hide Written, Output;
      var (w, written) := Written(writers[i], Output(pending[i][c], rangeStart, dtsOrigins[i]));
      writers := writers[i := w];
      if !written {
        Fail(WriteFailed);
        return false;
      }
      pending := pending[i := pending[i] - {c}];
      return true;
    }

    /** What the worker does once its maps have changed. */
    method Settle()
      requires Valid() && running && error.None?
      modifies this
      ensures Valid() && CoreView() == Settled(old(CoreView()))
      ensures queue == old(queue) && running == old(running) && stopRequested == old(stopRequested)
    {
      hide Flushed, Elected;
      var established := EstablishCommonStart();
      if started && error.None? {
        var flushed := FlushCommonPrefix();
      }
    }

    /** One turn of the worker loop, including its final drain. */
    method Work()
      requires Valid()
      modifies this
      ensures Valid() && View() == Worked(old(View()))
    {
      hide Settled, Inserted, Total, Drained, ClosedFrom;
      if !running {
        return;
      }
      if error.Some? || (|queue| == 0 && stopRequested) {
        DrainAndFinalize();
        return;
      }
      if |queue| == 0 {
        return;
      }
      ghost var s := CoreView();
      var item := queue[0];
      queue := queue[1..];
      Receive(item);
      InsertKeepsError(s, item);
      var count := PendingCount();
      if count > MAX_QUEUE_PACKETS {
        Fail(PendingOverflow);
        return;
      }
      Settle();
    }

    method DrainAndFinalize()
      requires Valid() && running
      modifies this
      ensures Valid()
      ensures var t := Drained(old(CoreView()));
              View() == Recorder(ClosedFrom(t, 0), old(queue), false, old(stopRequested), Some(OutcomeOf(t)))
    {
      hide Settled;
      if error.None? {
        Settle();
        if error.None? {
          if !started {
            Fail(NoCommonStart);
          } else {
            var empty := NothingPending();
            if !empty {
              Fail(UnresolvedPrefix);
            }
          }
        }
      }
      assert CoreView() == Drained(old(CoreView()));
      Finalize();
    }

    method NothingPending() returns (empty: bool)
      requires Valid()
      ensures empty <==> AllEmpty(pending)
    {
      for i := 0 to |pending|
        invariant forall j :: 0 <= j < i ==> pending[j] == map[]
      {
        if pending[i] != map[] {
          return false;
        }
      }
      return true;
    }

    method Finalize()
      requires Valid() && running
      modifies this
      ensures Valid()
      ensures View() == Recorder(ClosedFrom(old(CoreView()), 0), old(queue), false, old(stopRequested),
                                 Some(OutcomeOf(old(CoreView()))))
    {
      hide Closed;
      ghost var s := CoreView();
      for i := 0 to |writers|
        invariant CoreView().Shaped() && |writers| == |old(writers)| && |pending| == |old(pending)|
        invariant ClosedFrom(CoreView(), i) == ClosedFrom(s, 0)
        invariant queue == old(queue) && running == old(running) && stopRequested == old(stopRequested)
        invariant result == old(result)
      {
        CloseOne(i);
      }
      if result.None? {
        var success := error.None? && started && rangeEnd >= rangeStart;
        result := Some(Outcome(success, rangeStart, rangeEnd, packetCount, error));
      }
      running := false;
    }

    method CloseOne(i: nat)
      requires CoreView().Shaped() && i < |writers|
      modifies `writers, `error
      ensures CoreView().Shaped() && |writers| == |old(writers)|
      ensures ClosedFrom(old(CoreView()), i) == ClosedFrom(CoreView(), i + 1)
    {
      hide Closed;
      if error.Some? {
        writers := writers[i := writers[i].(isOpen := false)];
      } else {
        var (w, closed) := Closed(writers[i]);
        writers := writers[i := w];
        if !closed.success || closed.first != rangeStart || closed.last != rangeEnd {
          error := Some(LiveRecorderModel.RangeMismatch);
        }
      }
    }
  }
}
