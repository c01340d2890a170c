/** The sink interface of a recording stream. A sink may refuse any call; the session fails for good at
    the first refusal, so a sink is described by how many more calls it will accept. */
module PacketSinks {
  import opened Packets

  /** What has been done to a sink. `budget` is the number of calls it still accepts. */
  datatype Sink = Sink(openedAt: Option<nat>, written: seq<Packet>, committed: Option<nat>, ended: Option<nat>,
                       aborted: bool, budget: nat) {
    function Opened(start: nat): Sink
      requires budget > 0
    {
      this.(openedAt := Some(start), budget := budget - 1)
    }

    /** A batch of writes: all of it, or as much as the sink accepts. */
    function Wrote(packets: seq<Packet>): Sink {
      if |packets| <= budget then this.(written := written + packets, budget := budget - |packets|)
      else this.(written := written + packets[..budget], budget := 0)
    }

    function Committed(cts: nat): Sink
      requires budget > 0
    {
      this.(committed := Some(cts), budget := budget - 1)
    }

    function Ended(cts: nat): Sink
      requires budget > 0
    {
      this.(ended := Some(cts), budget := budget - 1)
    }

    function Aborted(): Sink { this.(aborted := true) }

    ghost predicate Untouched() {
      openedAt.None? && written == [] && committed.None? && ended.None? && !aborted
    }
  }

  class PacketSink {
    var openedAt: Option<nat>
    var written: seq<Packet>
    var committed: Option<nat>
    var ended: Option<nat>
    var aborted: bool
    var budget: nat

    function View(): Sink
      reads this
    {
      Sink(openedAt, written, committed, ended, aborted, budget)
    }

    constructor (budget: nat)
      ensures View().Untouched() && this.budget == budget
    {
      openedAt, written, committed, ended, aborted := None, [], None, None, false;
      this.budget := budget;
    }

    method Open(start: nat) returns (ok: bool)
      modifies this
      ensures ok <==> old(budget) > 0
      ensures View() == if ok then old(View()).Opened(start) else old(View())
    {
      ok := budget > 0;
      if ok {
        openedAt, budget := Some(start), budget - 1;
      }
    }

    method Write(packet: Packet) returns (ok: bool)
      modifies this
      ensures ok <==> old(budget) > 0
      ensures View() == old(View()).Wrote([packet])
    {
      ok := budget > 0;
      if ok {
        written, budget := written + [packet], budget - 1;
      }
    }

    method CommitThrough(cts: nat) returns (ok: bool)
      modifies this
      ensures ok <==> old(budget) > 0
      ensures View() == if ok then old(View()).Committed(cts) else old(View())
    {
      ok := budget > 0;
      if ok {
        committed, budget := Some(cts), budget - 1;
      }
    }

    method Finalize(end: nat) returns (ok: bool)
      modifies this
      ensures ok <==> old(budget) > 0
      ensures View() == if ok then old(View()).Ended(end) else old(View())
    {
      ok := budget > 0;
      if ok {
        ended, budget := Some(end), budget - 1;
      }
    }

    method Abort()
      modifies this
      ensures View() == old(View()).Aborted()
    {
      aborted := true;
    }
  }
}
