/** The N-stream live recorder: producers append packets to a queue, one worker drains it, elects a common
    start and writes the common prefix in lockstep. Each worker action is a function of the recorder state. */
module LiveRecorderModel {
  import opened Packets
  import opened MkvWriter

  const MAX_QUEUE_PACKETS: nat := 8192

  /** A captured packet: its stream (by local index) and whether it carries the codec header. */
  datatype Item = Item(stream: nat, packet: Packet, header: bool)

  datatype StreamConfig = StreamConfig(configured: bool, tbNum: int, tbDen: int, header: bool)

  datatype Reason =
    | QueueOverflow | PendingOverflow | OpenFailed | WriteFailed | NoCommonStart | UnresolvedPrefix | RangeMismatch

  /** The worker's state. `pending` maps CTS to packet, per stream; `older` and `repeated` note dropped packets. */
  datatype Core = Core(pending: seq<map<nat, Packet>>, configs: seq<StreamConfig>, writers: seq<Writer>,
                       origins: seq<int>, started: bool, start: nat, end: nat, count: nat, error: Option<Reason>,
                       older: seq<set<Packet>>, repeated: seq<set<Packet>>)
  {
    ghost predicate Shaped() {
      |pending| == |configs| == |writers| == |origins| == |older| == |repeated|
    }
  }

  // ---- least elements

  ghost function Least(s: set<nat>): (m: nat)
    requires s != {}
    ensures m in s && forall k :: k in s ==> m <= k
  {
    var x :| x in s;
    var rest := s - {x};
    assert forall k :: k in s ==> k == x || k in rest;
    if rest == {} then x
    else
      var m := Least(rest);
      if x < m then x else m
  }

  lemma LeastIs(s: set<nat>, m: nat)
    requires m in s && forall k :: k in s ==> m <= k
    ensures Least(s) == m
  {
  }

  // ---- one packet enters the pending maps

  function Put(m: map<nat, Packet>, p: Packet): map<nat, Packet> {
    m[p.cts := p]
  }

  ghost function Inserted(s: Core, item: Item): (t: Core)
    requires s.Shaped()
    ensures t.Shaped() && |t.pending| == |s.pending|
  {
    var i, p := item.stream, item.packet;
    if i >= |s.pending| then s
    else if p.cts in s.pending[i] then s.(repeated := s.repeated[i := s.repeated[i] + {p}])
    else
      s.(pending := s.pending[i := Put(s.pending[i], p)],
         configs := if item.header then s.configs[i := s.configs[i].(header := true)] else s.configs)
  }

  ghost function Total(pending: seq<map<nat, Packet>>): nat {
    if |pending| == 0 then 0 else Total(pending[..|pending| - 1]) + |pending[|pending| - 1]|
  }

  // ---- the election

  ghost predicate InAll(pending: seq<map<nat, Packet>>, c: nat) {
    forall i :: 0 <= i < |pending| ==> c in pending[i]
  }

  ghost predicate KeyInAll(pending: seq<map<nat, Packet>>, c: nat) {
    forall i :: 0 <= i < |pending| ==> c in pending[i] && pending[i][c].keyframe
  }

  ghost function CommonKeys(pending: seq<map<nat, Packet>>): set<nat> {
    if |pending| == 0 then {} else set c | c in pending[0] && KeyInAll(pending, c)
  }

  ghost function Election(pending: seq<map<nat, Packet>>): Option<nat> {
    if CommonKeys(pending) == {} then None else Some(Least(CommonKeys(pending)))
  }

  function AtOrAbove(m: map<nat, Packet>, c: nat): map<nat, Packet> {
    map k | k in m && k >= c :: m[k]
  }

  function Below(m: map<nat, Packet>, c: nat): set<Packet> {
    set k | k in m && k < c :: m[k]
  }

  /** Opening a writer: its configuration must be complete and the library must agree. */
  predicate Opens(w: Writer, config: StreamConfig) {
    config.configured && config.header && config.tbNum > 0 && config.tbDen > 0 && w.budget > 0
  }

  function OpenedWriter(w: Writer): Writer
    requires w.budget > 0
  {
    w.(isOpen := true, tbNum := w.tick.num, tbDen := w.tick.den, budget := w.budget - 1)
  }

  /** Opens the writers from index `i` on; the first refusal ends the recording. */
  ghost function OpenedFrom(s: Core, c: nat, i: nat): (t: Core)
    requires s.Shaped() && i <= |s.pending| && InAll(s.pending, c)
    ensures t.Shaped() && t.pending == s.pending && t.configs == s.configs
    decreases |s.pending| - i
  {
    if i == |s.pending| then s.(started := true)
    else if !Opens(s.writers[i], s.configs[i]) then s.(error := Some(OpenFailed))
    else
      OpenedFrom(s.(writers := s.writers[i := OpenedWriter(s.writers[i])],
                    origins := s.origins[i := s.pending[i][c].dts]), c, i + 1)
  }

  ghost function Trimmed(s: Core, c: nat): (t: Core)
    requires s.Shaped()
    ensures t.Shaped()
  {
    s.(start := c,
       pending := seq(|s.pending|, i requires 0 <= i < |s.pending| => AtOrAbove(s.pending[i], c)),
       older := seq(|s.pending|, i requires 0 <= i < |s.pending| => s.older[i] + Below(s.pending[i], c)))
  }

  ghost function Elected(s: Core): (t: Core)
    requires s.Shaped()
    ensures t.Shaped() && |t.pending| == |s.pending|
  {
    match Election(s.pending)
    case None => s
    case Some(c) => OpenedFrom(Trimmed(s, c), c, 0)
  }

  // ---- the common prefix

  /** The next CTS to write: the oldest of stream 0, if every stream has it. */
  ghost function NextRound(pending: seq<map<nat, Packet>>): Option<nat> {
    if |pending| == 0 || pending[0].Keys == {} then None
    else
      var c := Least(pending[0].Keys);
      if InAll(pending, c) then Some(c) else None
  }

  /** The packet as written: PTS counted from the start, DTS from the stream's first packet. */
  function Output(p: Packet, start: nat, origin: int): Packet {
    p.(pts := if p.tbNum > 0 && p.tbDen > 0 then RescaleQ(p.cts - start, 1, NANOSECONDS, p.tbNum, p.tbDen) else 0,
       dts := p.dts - origin)
  }

  /** Writes CTS `c` to the streams from index `i` on. */
  ghost function RoundFrom(s: Core, c: nat, i: nat): (t: Core)
    requires s.Shaped() && i <= |s.pending| && s.error.None?
    requires forall j :: i <= j < |s.pending| ==> c in s.pending[j]
    ensures t.Shaped() && |t.pending| == |s.pending|
    ensures t.error.None? ==>
              forall j :: 0 <= j < |s.pending| ==> t.pending[j] == if j < i then s.pending[j] else s.pending[j] - {c}
    decreases |s.pending| - i
  {
    if i == |s.pending| then s.(end := c, count := s.count + 1)
    else
      var (w, ok) := Written(s.writers[i], Output(s.pending[i][c], s.start, s.origins[i]));
      if !ok then s.(writers := s.writers[i := w], error := Some(WriteFailed))
      else RoundFrom(s.(writers := s.writers[i := w], pending := s.pending[i := s.pending[i] - {c}]), c, i + 1)
  }

  ghost function Backlog(pending: seq<map<nat, Packet>>): nat {
    if |pending| == 0 then 0 else |pending[0]|
  }

  ghost function Flushed(s: Core): (t: Core)
    requires s.Shaped() && s.error.None?
    ensures t.Shaped() && |t.pending| == |s.pending|
    decreases Backlog(s.pending)
  {
    match NextRound(s.pending)
    case None => s
    case Some(c) =>
      var t := RoundFrom(s, c, 0);
      if t.error.Some? then t
      else
        assert t.pending[0].Keys == s.pending[0].Keys - {c};
        Flushed(t)
  }

  /** What the worker does after each packet and once more at the end. */
  ghost function Settled(s: Core): (t: Core)
    requires s.Shaped() && s.error.None?
    ensures t.Shaped() && |t.pending| == |s.pending|
  {
    var e := if s.started then s else Elected(s);
    if e.started && e.error.None? then Flushed(e) else e
  }

  ghost function Processed(s: Core, item: Item): (t: Core)
    requires s.Shaped()
    ensures t.Shaped() && |t.pending| == |s.pending|
  {
    if s.error.Some? then s
    else
      var t := Inserted(s, item);
      if Total(t.pending) > MAX_QUEUE_PACKETS then t.(error := Some(PendingOverflow)) else Settled(t)
  }

  ghost function ProcessedAll(s: Core, items: seq<Item>): (t: Core)
    requires s.Shaped()
    ensures t.Shaped() && |t.pending| == |s.pending|
  {
    if |items| == 0 then s
    else Processed(ProcessedAll(s, items[..|items| - 1]), items[|items| - 1])
  }

  // ---- the end of a recording

  ghost predicate AllEmpty(pending: seq<map<nat, Packet>>) {
    forall i :: 0 <= i < |pending| ==> pending[i] == map[]
  }

  ghost function Drained(s: Core): (t: Core)
    requires s.Shaped()
    ensures t.Shaped() && |t.pending| == |s.pending|
  {
    if s.error.Some? then s
    else
      var t := Settled(s);
      if t.error.Some? then t
      else if !t.started then t.(error := Some(NoCommonStart))
      else if !AllEmpty(t.pending) then t.(error := Some(UnresolvedPrefix))
      else t
  }

  /** Closes the writers from index `i` on; each must report the common range. After a failure they are aborted. */
  ghost function ClosedFrom(s: Core, i: nat): (t: Core)
    requires s.Shaped() && i <= |s.writers|
    ensures t.Shaped() && |t.pending| == |s.pending|
    decreases |s.writers| - i
  {
    if i == |s.writers| then s
    else if s.error.Some? then ClosedFrom(s.(writers := s.writers[i := s.writers[i].(isOpen := false)]), i + 1)
    else
      var (w, result) := Closed(s.writers[i]);
      var t := s.(writers := s.writers[i := w]);
      ClosedFrom(if !result.success || result.first != s.start || result.last != s.end
                 then t.(error := Some(RangeMismatch)) else t, i + 1)
  }

  datatype Outcome = Outcome(success: bool, start: nat, end: nat, count: nat, error: Option<Reason>)

  /** A failure before the files are closed is reported at once, without a range. */
  function Reported(reason: Reason): Outcome {
    Outcome(false, 0, 0, 0, Some(reason))
  }

  function Failure(error: Option<Reason>): Option<Outcome> {
    if error.Some? then Some(Reported(error.value)) else None
  }

  ghost function OutcomeOf(s: Core): Outcome
    requires s.Shaped()
  {
    if s.error.Some? then Reported(s.error.value)
    else
      var t := ClosedFrom(s, 0);
      Outcome(t.error.None? && t.started && t.end >= t.start, t.start, t.end, t.count, t.error)
  }

  // ---- producers and worker

  /** The recorder between two lock regions; `outcome` is the result it shows. */
  datatype Recorder = Recorder(core: Core, queue: seq<Item>, running: bool, stopping: bool, outcome: Option<Outcome>)

  datatype Step = Enqueue(item: Item) | Work | Stop

  ghost function Enqueued(r: Recorder, item: Item): (t: Recorder)
    requires r.core.Shaped()
    ensures t.core.Shaped()
  {
    if !r.running || r.stopping || r.core.error.Some? || item.stream >= |r.core.pending| then r
    else if |r.queue| >= MAX_QUEUE_PACKETS then
      r.(core := r.core.(error := Some(QueueOverflow)), outcome := Some(Reported(QueueOverflow)))
    else r.(queue := r.queue + [item])
  }

  /** One turn of the worker: it stops on failure or at the end of a stopped queue, else takes the next packet. */
  ghost function Worked(r: Recorder): (t: Recorder)
    requires r.core.Shaped()
    ensures t.core.Shaped()
  {
    if !r.running then r
    else if r.core.error.Some? || (|r.queue| == 0 && r.stopping) then
      var s := Drained(r.core);
      r.(core := ClosedFrom(s, 0), running := false, outcome := Some(OutcomeOf(s)))
    else if |r.queue| == 0 then r
    else
      var s := Processed(r.core, r.queue[0]);
      r.(core := s, queue := r.queue[1..], outcome := if s.error.Some? then Failure(s.error) else r.outcome)
  }

  ghost function Stepped(r: Recorder, step: Step): (t: Recorder)
    requires r.core.Shaped()
    ensures t.core.Shaped()
  {
    match step
    case Enqueue(item) => Enqueued(r, item)
    case Work => Worked(r)
    case Stop => if r.running then r.(stopping := true) else r
  }
}
