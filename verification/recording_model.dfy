/** The two-stream recording transaction as a function of its state: what each public call does.
    The class `RecordingSession.SynchronizedRecordingSession` is proved to compute these functions. */
module RecordingModel {
  import opened Packets
  import opened DecodeOrder
  import opened PacketBuffer
  import opened CommonRange
  import opened PacketSinks

  datatype Stream = A | B

  datatype State = Idle | Starting | Running | Draining | Stopped | Failed

  datatype Failure =
    | NoFailure | Aborted | InvalidTransition | StartTimeout | PacketTiming | RepeatedCts | LatePacket
    | BufferCapacity | SinkOpen | SinkWrite | MissingCommonRange | RangeMismatch | SinkFinalize

  datatype Config = Config(preRollCapacity: nat, tailCapacity: nat, reorderSafety: nat, expectedStep: nat,
                           maxStartWait: nat)

  /** One stream: its store, its greatest accepted CTS, its sink, and the history of accepted packets. */
  datatype Lane = Lane(store: Buffer, maxCts: nat, sink: Sink, accepted: seq<Packet>)

  /** `flushed` is the last committed CTS, `range` the elected range. */
  datatype Session = Session(state: State, failure: Failure, requestedStart: nat, requestedStop: nat,
                             step: nat, flushed: Option<nat>, range: Option<Range>, a: Lane, b: Lane)
  {
    ghost function Failing(reason: Failure): Session {
      this.(state := Failed, failure := reason,
            a := a.(sink := a.sink.Aborted()), b := b.(sink := b.sink.Aborted()))
    }

    ghost predicate Succeeds() { state != Failed }
  }

  ghost function Initial(config: Config, budgetA: nat, budgetB: nat): Session {
    var empty := Buffer([], 0, 0, config.preRollCapacity);
    Session(Idle, NoFailure, 0, 0, config.expectedStep, None, None,
            Lane(empty, 0, Sink(None, [], None, None, false, budgetA), []),
            Lane(empty, 0, Sink(None, [], None, None, false, budgetB), []))
  }

  // ---- cadence inference and the watermark

  /** The distance between the first two packets at or above the start, 0 if there are fewer. */
  ghost function FirstStep(s: seq<Packet>, start: nat): nat {
    var f := From(s, start);
    if |f| >= 2 && f[1].cts > f[0].cts then f[1].cts - f[0].cts else 0
  }

  ghost function InferredStep(s: Session): nat {
    if s.range.None? || s.step != 0 then s.step
    else
      var x, y := FirstStep(s.a.store.packets, s.range.value.start), FirstStep(s.b.store.packets, s.range.value.start);
      if x != 0 && y != 0 && x <= y + 1 && y <= x + 1 then (if x < y then x else y) else 0
  }

  ghost function Inferred(s: Session): Session {
    s.(step := InferredStep(s))
  }

  ghost function Watermark(s: Session, safety: nat): Option<nat>
    requires s.range.Some?
  {
    var newest := if s.a.maxCts < s.b.maxCts then s.a.maxCts else s.b.maxCts;
    if newest < safety || newest - safety < s.range.value.start then None else Some(newest - safety)
  }

  /** The common prefix of the two stores from the elected start, cut at `upper`. */
  ghost function Selected(s: Session, upper: nat): Option<nat>
    requires s.range.Some?
  {
    PrefixEnd(s.a.store.packets, s.b.store.packets, s.range.value.start, upper, s.step)
  }

  // ---- committing

  /** The first CTS that is not committed yet. */
  ghost function Frontier(s: Session): nat
    requires s.range.Some?
  {
    if s.flushed.Some? && s.flushed.value >= s.range.value.start then s.flushed.value + 1 else s.range.value.start
  }

  ghost predicate Contained(x: seq<Packet>, y: seq<Packet>) {
    forall q :: q in x ==> HasCts(y, q.cts)
  }

  /** `t` comes from `s` without any packet being accepted. */
  ghost predicate SameHistory(s: Session, t: Session) {
    && t.a.accepted == s.a.accepted && t.b.accepted == s.b.accepted
    && t.requestedStart == s.requestedStart
    && (t.state != Failed ==> t.failure == s.failure)
  }

  ghost function FlushedThrough(s: Session, cts: nat): (t: Session)
    ensures t.range == s.range && SameHistory(s, t)
  {
    if s.range.None? || cts < s.range.value.start then s.Failing(MissingCommonRange)
    else if s.flushed.Some? && cts <= s.flushed.value then s
    else
      var t := Inferred(s);
      var newA := Between(t.a.store.packets, Frontier(t), cts);
      var newB := Between(t.b.store.packets, Frontier(t), cts);
      if Selected(t, cts) != Some(cts) || !Contained(newA, t.b.store.packets) || !Contained(newB, t.a.store.packets)
      then t.Failing(RangeMismatch)
      else Committed(t, cts, DecodeSort(newA), DecodeSort(newB))
  }

  ghost function Committed(s: Session, cts: nat, batchA: seq<Packet>, batchB: seq<Packet>): Session {
    var w := s.(a := s.a.(sink := s.a.sink.Wrote(batchA)));
    if |batchA| > s.a.sink.budget then w.Failing(SinkWrite)
    else
      var x := w.(b := w.b.(sink := w.b.sink.Wrote(batchB)));
      if |batchB| > s.b.sink.budget then x.Failing(SinkWrite)
      else if x.a.sink.budget == 0 then x.Failing(SinkWrite)
      else
        var y := x.(a := x.a.(sink := x.a.sink.Committed(cts)));
        if y.b.sink.budget == 0 then y.Failing(SinkWrite)
        else
          y.(flushed := Some(cts),
             a := y.a.(store := y.a.store.Discarded(cts + 1)),
             b := y.b.(sink := y.b.sink.Committed(cts), store := y.b.store.Discarded(cts + 1)))
  }

  ghost function StableFlushed(s: Session, safety: nat): (t: Session)
    requires s.range.Some?
    ensures t.range == s.range && SameHistory(s, t)
  {
    var t := Inferred(s);
    match Watermark(t, safety)
    case None => t
    case Some(upper) =>
      match Selected(t, upper)
      case None => t
      case Some(cts) => if t.flushed.Some? && cts <= t.flushed.value then t else FlushedThrough(t, cts)
  }

  // ---- the start election

  ghost function Established(s: Session, config: Config): (t: Session)
    ensures SameHistory(s, t)
  {
    match CommonStart(s.a.store.packets, s.b.store.packets, s.requestedStart)
    case None => s
    case Some(c) =>
      var t := s.(range := Some(Range(c, c)),
                  a := s.a.(store := s.a.store.Discarded(c)), b := s.b.(store := s.b.store.Discarded(c)));
      if config.tailCapacity < t.a.store.bytes then t.Failing(BufferCapacity)
      else
        var u := t.(a := t.a.(store := t.a.store.Resized(config.tailCapacity)));
        if config.tailCapacity < u.b.store.bytes then u.Failing(BufferCapacity)
        else Opened(u.(b := u.b.(store := u.b.store.Resized(config.tailCapacity))), c, config)
  }

  ghost function Opened(s: Session, c: nat, config: Config): (t: Session)
    requires s.range.Some?
    ensures SameHistory(s, t)
  {
    if s.a.sink.budget == 0 then s.Failing(SinkOpen)
    else
      var t := s.(a := s.a.(sink := s.a.sink.Opened(c)));
      if t.b.sink.budget == 0 then t.Failing(SinkOpen)
      else
        var u := Inferred(t.(a := t.a.(maxCts := NewestOr(t.a.store, c)),
                             b := t.b.(sink := t.b.sink.Opened(c), maxCts := NewestOr(t.b.store, c))));
        StableFlushed(u.(state := Running), config.reorderSafety)
  }

  ghost function NewestOr(store: Buffer, c: nat): nat {
    if |store.packets| == 0 then c else MaxCts(store.packets)
  }

  // ---- the public calls

  ghost function Started(s: Session, requestedStart: nat): Session {
    if s.state != Idle then s.Failing(InvalidTransition)
    else s.(requestedStart := requestedStart, state := Starting)
  }

  ghost function LaneOf(s: Session, stream: Stream): Lane {
    if stream == A then s.a else s.b
  }

  ghost function WithLane(s: Session, stream: Stream, lane: Lane): Session {
    if stream == A then s.(a := lane) else s.(b := lane)
  }

  ghost function Accepting(lane: Lane, p: Packet): Lane {
    lane.(store := lane.store.Pushed(p), maxCts := if p.cts > lane.maxCts then p.cts else lane.maxCts,
          accepted := Insert(lane.accepted, p))
  }

  ghost function Submitted(s: Session, config: Config, stream: Stream, p: Packet): Session {
    if s.state !in {Starting, Running, Draining} then s.Failing(InvalidTransition)
    else if s.range.Some? && p.cts < s.range.value.start then s
    else if s.range.Some? && s.flushed.Some? && p.cts <= s.flushed.value then s.Failing(LatePacket)
    else
      match LaneOf(s, stream).store.PushOutcome(p)
      case MissingTiming => s.Failing(PacketTiming)
      case DuplicateSourceCts => s.Failing(RepeatedCts)
      case Capacity => s.Failing(BufferCapacity)
      case Retained =>
        var t := WithLane(s, stream, Accepting(LaneOf(s, stream), p));
        if s.state == Starting then Established(t, config)
        else if s.state == Running && s.range.Some? then StableFlushed(t, config.reorderSafety)
        else t
  }

  ghost function Polled(s: Session, config: Config, currentCts: nat): Session {
    if s.state != Starting then s
    else
      var t := Established(s, config);
      if t.Succeeds() then t
      else if currentCts >= s.requestedStart && currentCts - s.requestedStart > config.maxStartWait
      then t.Failing(StartTimeout)
      else t
  }

  ghost function StopRequested(s: Session, requestedStop: nat): Session {
    match s.state
    case Idle => s.Failing(InvalidTransition)
    case Starting => s.(requestedStop := requestedStop)
    case Running => s.(requestedStop := requestedStop, state := Draining)
    case _ => s
  }

  ghost function Drained(s: Session): Session {
    if s.state != Draining || s.range.None? then s
    else
      var flushed := if s.flushed.Some? then s.flushed.value else 0;
      var end := match Selected(s, s.requestedStop) case Some(c) => c case None => flushed;
      if end < s.range.value.start then s.Failing(MissingCommonRange)
      else
        var t := FlushedThrough(s, end);
        if t.Succeeds() then Finalized(t, end) else t
  }

  ghost function Finalized(s: Session, end: nat): Session
    requires s.range.Some?
  {
    if s.a.sink.budget == 0 then s.Failing(SinkFinalize)
    else
      var t := s.(a := s.a.(sink := s.a.sink.Ended(end)));
      if t.b.sink.budget == 0 then t.Failing(SinkFinalize)
      else
        t.(state := Stopped, range := Some(t.range.value.(end := end)),
           a := t.a.(store := t.a.store.Cleared()),
           b := t.b.(sink := t.b.sink.Ended(end), store := t.b.store.Cleared()))
  }

  ghost function AbortedBy(s: Session): Session {
    if s.state == Stopped || s.state == Failed then s
    else
      var reason := if s.failure == NoFailure then Aborted else s.failure;
      var t := s.Failing(reason);
      t.(a := t.a.(store := t.a.store.Cleared()), b := t.b.(store := t.b.store.Cleared()))
  }

  // ---- whole runs

  datatype Event =
    | Start(requestedStart: nat)
    | Submit(stream: Stream, packet: Packet)
    | Poll(currentCts: nat)
    | RequestStop(requestedStop: nat)
    | CompleteDrain
    | Abort

  ghost function After(s: Session, config: Config, event: Event): Session {
    match event
    case Start(requestedStart) => Started(s, requestedStart)
    case Submit(stream, packet) => Submitted(s, config, stream, packet)
    case Poll(currentCts) => Polled(s, config, currentCts)
    case RequestStop(requestedStop) => StopRequested(s, requestedStop)
    case CompleteDrain => Drained(s)
    case Abort => AbortedBy(s)
  }

  ghost function Run(s: Session, config: Config, events: seq<Event>): Session {
    if |events| == 0 then s
    else After(Run(s, config, events[..|events| - 1]), config, events[|events| - 1])
  }
}
