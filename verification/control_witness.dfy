/** A run that leaves an encoder active that nobody demands: a recording start fails half way while replay is on. */
module ControlWitness {
  import opened Packets
  import opened CaptureConfiguration
  import opened Encoders
  import opened EncoderDemand
  import opened ControlModel
  import opened ControlTheorems

  const FORMAT := PacketStreamConfig(16, 16, 1, 1000)
  const REPLAYED := ConfiguredStream(Master, "a", ReplayOnly, FORMAT)
  const RECORDED := ConfiguredStream(Scene("b"), "b", RecordingOnly, FORMAT)
  const REFUSED := ConfiguredStream(Scene("c"), "c", RecordingOnly, FORMAT)

  function Streams(): (s: seq<ConfiguredStream>)
    ensures |s| == 3 && s[0] == REPLAYED && s[1] == RECORDED && s[2] == REFUSED
  {
    [REPLAYED, RECORDED, REFUSED]
  }

  /** `n` accepted calls, then a refused one. */
  function Answers(n: nat): seq<bool> {
    if n == 0 then [false] else [true] + Answers(n - 1)
  }

  lemma NextAnswer(x: EncoderState, n: nat)
    requires x.verdicts == Answers(n)
    ensures x.Willing() == (n > 0)
    ensures n > 0 ==> x.Asked() == x.(verdicts := Answers(n - 1))
  {
    assert n > 0 ==> Answers(n)[1..] == Answers(n - 1);
  }

  lemma AllEnabled()
    ensures Enabled(Streams()) == Streams()
  {
    var s := Streams();
    NoneEnabled();
    EnabledSnoc(s, 0);
    EnabledSnoc(s, 1);
    EnabledSnoc(s, 2);
    hide Enabled;
    assert s[..0] == [] && s[..3] == s;
    var x, y := Enabled(s[..1]), Enabled(s[..2]);
    assert x == [] + [s[0]] && y == x + [s[1]] && Enabled(s) == y + [s[2]];
  }

  lemma StreamFacts()
    ensures Enabled(Streams()) == Streams() && EnabledDistinct(Streams()) && Numberable(Streams())
    ensures |Taken(Streams(), Recording)| == 2 && |Taken(Streams(), Replay)| == 1
  {
    var s := Streams();
    AllEnabled();
    hide Enabled, Taken;
    assert s == ([s[0]] + [s[1]]) + [s[2]];
    TakenFacts(s[0], s[1], s[2], Recording);
    TakenFacts(s[0], s[1], s[2], Replay);
  }

  lemma TakenFacts(a: ConfiguredStream, b: ConfiguredStream, c: ConfiguredStream, consumer: CaptureConsumer)
    requires a == REPLAYED && b == RECORDED && c == REFUSED
    ensures |Taken(([a] + [b]) + [c], consumer)| == if consumer.Recording? then 2 else 1
  {
    hide Taken;
    NoneTaken(consumer);
    TakenSnoc([], a, consumer);
    assert [] + [a] == [a];
    TakenSnoc([a], b, consumer);
    TakenSnoc([a] + [b], c, consumer);
  }

  lemma Lookup(i: nat)
    requires i < 3
    ensures CaptureIdOf(Streams(), Streams()[i].identity) == Some(i)
  {
    StreamFacts();
    hide Enabled, Taken;
    EnabledHasId(Streams(), i);
  }

  /** Creating with at least as many accepted calls left as encoders are missing. */
  lemma Creates(x: EncoderState, present: bool, n: nat)
    requires x.verdicts == Answers(n) && (present <==> 0 in x.active) && 1 !in x.active && 2 !in x.active
    requires n >= if present then 2 else 3
    ensures var (y, ok) := CreatedUpTo(Streams(), x, 3);
            ok && y.active == x.active && y.verdicts == Answers(if present then n - 2 else n - 3)
  {
    var s := Streams();
    Lookup(0);
    Lookup(1);
    Lookup(2);
    hide CaptureIdOf, Answers, Streams;
    var y0 := if present then x else Created(x, 0).0;
    var m := if present then n else n - 1;
    NextAnswer(x, n);
    assert CreatedUpTo(s, x, 0) == (x, true);
    assert CreatedUpTo(s, x, 1) == (y0, true) && y0.verdicts == Answers(m);
    NextAnswer(y0, m);
    var y1 := Created(y0, 1).0;
    assert CreatedUpTo(s, x, 2) == (y1, true) && y1.verdicts == Answers(m - 1);
    NextAnswer(y1, m - 1);
    assert CreatedUpTo(s, x, 3) == (Created(y1, 2).0, true);
  }

  lemma ActivateNext(recording: bool, replay: bool, x: EncoderState, i: nat, y: EncoderState)
    requires i < 3 && ActivatedUpTo(Streams(), recording, replay, x, i) == (y, true)
    ensures ActivatedUpTo(Streams(), recording, replay, x, i + 1) ==
            if !StreamNeedsEncoder(Streams()[i].mode, recording, replay) || i in y.active then (y, true)
            else Activated(y, i)
  {
    Lookup(i);
    hide CaptureIdOf, Streams, Answers, StreamNeedsEncoder;
  }

  /** The replay start: everything is created, stream 0 is started. */
  lemma ReplayComesUp(x: EncoderState)
    requires x.active == {} && x.verdicts == Answers(7)
    ensures var (y, ok) := Reconciled(Streams(), false, true, x); ok && y.active == {0} && y.verdicts == Answers(3)
  {
    Creates(x, false, 7);
    hide CaptureIdOf, Answers, Streams, CreatedUpTo;
    var c := CreatedUpTo(Streams(), x, 3).0;
    NextAnswer(c, 4);
    ActivateNext(false, true, c, 0, c);
    var y := Activated(c, 0).0;
    hide ActivatedUpTo;
    ActivateNext(false, true, c, 1, y);
    ActivateNext(false, true, c, 2, y);
  }

  lemma RecordingStartsOne(c: EncoderState)
    requires 0 in c.active && 1 !in c.active && c.verdicts == Answers(1)
    ensures ActivatedUpTo(Streams(), true, true, c, 2) == (Activated(c, 1).0, true)
  {
    NextAnswer(c, 1);
    ActivateNext(true, true, c, 0, c);
    hide ActivatedUpTo, Answers, Streams;
    ActivateNext(true, true, c, 1, c);
  }

  lemma StartAnswered(x: EncoderState, id: nat, n: nat)
    requires x.verdicts == Answers(n)
    ensures var (y, ok) := Activated(x, id);
            && ok == (n > 0) && y.active == (if n > 0 then x.active + {id} else x.active)
            && (n > 0 ==> y.verdicts == Answers(n - 1))
  {
    NextAnswer(x, n);
  }

  lemma LastRefused(c: EncoderState, y: EncoderState)
    requires ActivatedUpTo(Streams(), true, true, c, 2) == (y, true) && 2 !in y.active && y.verdicts == Answers(0)
    ensures var (z, ok) := ActivatedUpTo(Streams(), true, true, c, 3); !ok && z.active == y.active
  {
    hide Answers, Activated, ActivatedUpTo;
    StartAnswered(y, 2, 0);
    ActivateNext(true, true, c, 2, y);
  }

  lemma RecordingRefused(c: EncoderState)
    requires 0 in c.active && 1 !in c.active && 2 !in c.active && c.verdicts == Answers(1)
    ensures var (z, ok) := ActivatedUpTo(Streams(), true, true, c, 3); !ok && z.active == c.active + {1}
  {
    hide Answers, Activated, ActivatedUpTo;
    StartAnswered(c, 1, 1);
    RecordingStartsOne(c);
    LastRefused(c, Activated(c, 1).0);
  }

  /** The recording start: stream 1 is started, stream 2 is refused. */
  lemma RecordingGetsStuck(x: EncoderState)
    requires 0 in x.active && 1 !in x.active && 2 !in x.active && x.verdicts == Answers(3)
    ensures var (y, ok) := Reconciled(Streams(), true, true, x); !ok && y.active == x.active + {1}
  {
    Creates(x, true, 3);
    hide Answers, Streams, CreatedUpTo, ActivatedUpTo;
    RecordingRefused(CreatedUpTo(Streams(), x, 3).0);
  }

  function Start(): Engine {
    Engine(false, RecordingOff, ReplayOff, Idle, 0, true, false, false, false, true, 0,
           EncoderState({}, Answers(7), []))
  }

  const COMMANDS: seq<Command> := [Initialize(0), StartReplay, StartRecording(2, true)]

  /** After the failed start encoder 1 is active and only encoder 0 is demanded. */
  lemma LeftoverRun()
    ensures Fresh(Start()) && LegalRun(Streams(), Start(), COMMANDS)
    ensures var t := At(Streams(), Start(), COMMANDS, 3);
            t.encoders.active == {0} + {1} && Demanded(Enabled(Streams()), t) == {0} && t.ReplayOn() && !t.RecordingOn()
  {
    var streams, s0 := Streams(), Start();
    StreamFacts();
    hide Enabled, Taken, Answers, Streams, Reconciled;
    var s1 := Initialized(streams, s0, 0);
    assert At(streams, s0, COMMANDS, 0) == s0 && At(streams, s0, COMMANDS, 1) == s1;
    ReplayComesUp(s1.encoders);
    var s2 := ReplayStarted(streams, s1).0;
    assert At(streams, s0, COMMANDS, 2) == s2;
    RecordingGetsStuck(s2.encoders);
    var s3 := RecordingStarted(streams, s2, 2, true).0;
    assert At(streams, s0, COMMANDS, 3) == s3;
    OnlyReplayDemanded(streams);
  }

  lemma OnlyReplayDemanded(streams: seq<ConfiguredStream>)
    requires streams == Streams()
    ensures Demand(streams, false, true) == {0}
  {
  }
}
