/** What every command of the control engine reports, and the consumer states it leaves, in terms of its guards. */
module ControlStatus {
  import opened CaptureConfiguration
  import opened Encoders
  import opened EncoderDemand
  import opened ControlModel
  import opened ControlTheorems

  // ---- how many streams a consumer takes

  ghost function Participants(e: seq<ConfiguredStream>, consumer: CaptureConsumer): set<nat> {
    set k: nat | k < |e| && StreamParticipates(e[k].mode, consumer)
  }

  lemma {:induction false} ParticipantCount(e: seq<ConfiguredStream>, consumer: CaptureConsumer)
    ensures |Taken(e, consumer)| == |Participants(e, consumer)|
  {
    if |e| == 0 {
      assert Participants(e, consumer) == {};
    } else {
      var n := |e| - 1;
      ParticipantCount(e[..n], consumer);
      var before := Participants(e[..n], consumer);
      assert forall k :: 0 <= k < n ==> e[..n][k] == e[k];
      if StreamParticipates(e[n].mode, consumer) {
        assert Participants(e, consumer) == before + {n};
        assert n !in before;
      } else {
        assert Participants(e, consumer) == before;
      }
    }
  }

  // ---- the answers of the encoder controller

  /** Some call between `x` and `y` was refused. */
  ghost predicate SomeRefused(x: EncoderState, y: EncoderState) {
    exists k :: 0 <= k < |x.verdicts| - |y.verdicts| && !x.verdicts[k]
  }

  /** From `x` to `y` the answers were used up in order, and all were positive exactly if `ok`. */
  ghost predicate Answered(x: EncoderState, y: EncoderState, ok: bool) {
    && |y.verdicts| <= |x.verdicts| && y.verdicts == x.verdicts[|x.verdicts| - |y.verdicts|..]
    && (ok <==> !SomeRefused(x, y))
  }

  lemma AnsweredOnce(x: EncoderState, y: EncoderState)
    requires Answered(x, y, true)
    ensures Answered(x, y.Asked(), y.Willing())
  {
    var n, z := |x.verdicts| - |y.verdicts|, y.Asked();
    if |y.verdicts| > 0 {
      assert y.verdicts[0] == x.verdicts[n] && z.verdicts == x.verdicts[n + 1..];
      if !y.Willing() {
        assert !x.verdicts[n] && n < |x.verdicts| - |z.verdicts|;
      }
    }
  }

  lemma {:induction false} CreatingAnswers(streams: seq<ConfiguredStream>, x: EncoderState, i: nat)
    requires i <= |streams|
    ensures Answered(x, CreatedUpTo(streams, x, i).0, CreatedUpTo(streams, x, i).1)
  {
    hide CaptureIdOf, Answered;
    if i == 0 {
      NothingAsked(x);
    } else {
      CreatingAnswers(streams, x, i - 1);
      var (y, ok) := CreatedUpTo(streams, x, i - 1);
      if ok {
        AnsweredOnce(x, y);
        Untraced(x, y.Asked(), y.Willing());
      }
    }
  }

  lemma NothingAsked(x: EncoderState)
    ensures Answered(x, x, true)
  {
  }

  /** Only the remaining answers matter. */
  lemma Untraced(x: EncoderState, y: EncoderState, ok: bool)
    requires Answered(x, y, ok)
    ensures forall z: EncoderState :: z.verdicts == y.verdicts ==> Answered(x, z, ok)
  {
  }

  lemma {:induction false} ActivatingAnswers(streams: seq<ConfiguredStream>, recording: bool, replay: bool,
                                             x: EncoderState, y: EncoderState, i: nat)
    requires i <= |streams| && Answered(x, y, true)
    ensures Answered(x, ActivatedUpTo(streams, recording, replay, y, i).0,
                     ActivatedUpTo(streams, recording, replay, y, i).1)
  {
    hide CaptureIdOf, Answered, StreamNeedsEncoder;
    if i > 0 {
      ActivatingAnswers(streams, recording, replay, x, y, i - 1);
      var (z, ok) := ActivatedUpTo(streams, recording, replay, y, i - 1);
      if ok {
        AnsweredOnce(x, z);
        Untraced(x, z.Asked(), z.Willing());
      }
    }
  }

  /** Creating and starting fails exactly if some call was refused. */
  lemma ReconcilingAnswers(streams: seq<ConfiguredStream>, recording: bool, replay: bool, x: EncoderState)
    ensures var (y, ok) := Reconciled(streams, recording, replay, x); Answered(x, y, ok)
  {
    hide CreatedUpTo, ActivatedUpTo, Answered;
    CreatingAnswers(streams, x, |streams|);
    var (y, ok) := CreatedUpTo(streams, x, |streams|);
    if ok {
      ActivatingAnswers(streams, recording, replay, x, y, |streams|);
    }
  }

  // ---- recording

  /** A start is turned down. */
  ghost predicate RecordingRefused(streams: seq<ConfiguredStream>, s: Engine, paths: nat) {
    !s.initialized || paths != |Participants(Enabled(streams), Recording)| || paths == 0
  }

  /** `StartRecording`: nothing to do while recording is on; invalid without initialization or with another number of
      paths than streams, or none; otherwise it fails exactly if the consumer does not start or an encoder call is
      refused, and then recording stays off. The epoch advances with each attempt to bring capture up. */
  lemma StartRecordingExactly(streams: seq<ConfiguredStream>, s: Engine, paths: nat, consumerStarts: bool)
    requires EnabledDistinct(streams) && Coherent(Enabled(streams), s)
    ensures var (t, status) := RecordingStarted(streams, s, paths, consumerStarts);
            && (status.NoOp? <==> s.RecordingOn())
            && (status.InvalidState? <==> !s.RecordingOn() && RecordingRefused(streams, s, paths))
            && (status.Succeeded? <==> !s.RecordingOn() && t.recording.RecordingRunning?)
            && (status.CommandFailed? <==>
                  && !s.RecordingOn() && !RecordingRefused(streams, s, paths)
                  && (!consumerStarts || SomeRefused(s.encoders, t.encoders)))
            && (status.NoOp? || status.InvalidState? ==> t == s)
            && (status.Succeeded? ==> t.running && t.recordingConsumer)
            && (status.CommandFailed? ==> t.recording.RecordingOff? && !t.recordingConsumer)
            && t.replay == s.replay && t.initialized == s.initialized && t.replayEnabled == s.replayEnabled
            && t.epoch == s.epoch + if !s.RecordingOn() && !RecordingRefused(streams, s, paths) && consumerStarts
                                       && s.Off() then 1 else 0
  {
    hide Enabled, Demand, Ids, Taken, Numberable, Reconciled, Trimmed, Participants, SomeRefused;
    ParticipantCount(Enabled(streams), Recording);
    if !s.RecordingOn() && !RecordingRefused(streams, s, paths) && consumerStarts {
      LaunchAnswers(streams, s, s.(recordingConsumer := true, recording := RecordingStarting, running := true,
                                   infra := Active));
    }
    hide EnabledDistinct;
  }

  /** What the encoders answered, also after an abandoned start has released everything. */
  lemma LaunchAnswers(streams: seq<ConfiguredStream>, s: Engine, m: Engine)
    requires EnabledDistinct(streams) && Coherent(Enabled(streams), s) && s.initialized && m.encoders == s.encoders
    ensures var (x, ok) := Reconciled(streams, m.RecordingOn(), m.ReplayOn(), m.encoders);
            && (ok <==> !SomeRefused(s.encoders, x))
            && (ok <==> !SomeRefused(s.encoders, Trimmed(streams, false, false, x)))
  {
    hide Enabled, Demand, Ids, Reconciled, Trimmed;
    var x := Reconciled(streams, m.RecordingOn(), m.ReplayOn(), m.encoders).0;
    ReconcilingAnswers(streams, m.RecordingOn(), m.ReplayOn(), m.encoders);
    TrimmingLeavesDemand(streams, false, false, x);
  }

  /** `StopRecording`: it never fails. */
  lemma StopRecordingExactly(streams: seq<ConfiguredStream>, s: Engine)
    requires EnabledDistinct(streams) && Coherent(Enabled(streams), s)
    ensures var (t, status) := RecordingStopped(streams, s);
            && status == (if s.RecordingOn() then Succeeded else NoOp)
            && !t.RecordingOn() && !t.recordingConsumer && (status.NoOp? ==> t == s)
            && t.replay == s.replay && t.epoch == s.epoch && t.initialized == s.initialized
            && t.replayEnabled == s.replayEnabled && (t.running <==> s.ReplayOn())
  {
    hide Enabled, Demand, Ids, Trimmed, Numberable;
  }

  // ---- replay

  ghost predicate ReplayRefused(streams: seq<ConfiguredStream>, s: Engine) {
    !s.initialized || !s.replayEnabled || Participants(Enabled(streams), Replay) == {}
  }

  /** `StartReplay`: nothing to do while replay is on; invalid without initialization, with replay disabled or without a
      stream; otherwise it fails exactly if an encoder call is refused, and then replay stays off. */
  lemma StartReplayExactly(streams: seq<ConfiguredStream>, s: Engine)
    requires EnabledDistinct(streams) && Coherent(Enabled(streams), s)
    ensures var (t, status) := ReplayStarted(streams, s);
            && (status.NoOp? <==> s.ReplayOn())
            && (status.InvalidState? <==> !s.ReplayOn() && ReplayRefused(streams, s))
            && (status.Succeeded? <==> !s.ReplayOn() && t.replay.ReplayRunning?)
            && (status.CommandFailed? <==>
                  !s.ReplayOn() && !ReplayRefused(streams, s) && SomeRefused(s.encoders, t.encoders))
            && (status.NoOp? || status.InvalidState? ==> t == s)
            && (status.Succeeded? ==> t.running && t.retention && t.replayConsumer)
            && (status.CommandFailed? ==> t.replay.ReplayOff? && !t.retention)
            && t.recording == s.recording && t.initialized == s.initialized && t.replayEnabled == s.replayEnabled
            && t.epoch == s.epoch + if !s.ReplayOn() && !ReplayRefused(streams, s) && s.Off() then 1 else 0
  {
    hide Enabled, Demand, Ids, Taken, Numberable, Reconciled, Trimmed, Participants, SomeRefused;
    ParticipantCount(Enabled(streams), Replay);
    if !s.ReplayOn() && !ReplayRefused(streams, s) {
      LaunchAnswers(streams, s, s.(replay := ReplayStarting));
    }
    hide EnabledDistinct;
  }

  /** `StopReplay`: it never fails. */
  lemma StopReplayExactly(streams: seq<ConfiguredStream>, s: Engine)
    requires EnabledDistinct(streams) && Coherent(Enabled(streams), s)
    ensures var (t, status) := ReplayStopped(streams, s);
            && status == (if s.ReplayOn() then Succeeded else NoOp)
            && !t.ReplayOn() && (status.NoOp? ==> t == s) && (status.Succeeded? ==> !t.retention)
            && t.recording == s.recording && t.epoch == s.epoch && t.initialized == s.initialized
            && t.replayEnabled == s.replayEnabled && (t.running <==> s.RecordingOn())
  {
    hide Enabled, Demand, Ids, Trimmed, Numberable;
  }

  /** `SaveReplay`: invalid unless replay is running, no save is in progress, and there is one path per stream and at
      least one; otherwise it fails exactly if the ring yields no snapshot. */
  lemma SaveReplayExactly(streams: seq<ConfiguredStream>, s: Engine, paths: nat, taken: bool)
    requires EnabledDistinct(streams) && Coherent(Enabled(streams), s)
    ensures var (t, status) := SaveRequested(streams, s, paths, taken);
            var invalid := !s.replay.ReplayRunning? || paths != |Participants(Enabled(streams), Replay)| || paths == 0;
            && (status.InvalidState? <==> invalid)
            && (status.CommandFailed? <==> !invalid && !taken)
            && (status.Succeeded? <==> s.replay.ReplayRunning? && t.replay.ReplaySaving?)
            && !status.NoOp? && (!status.Succeeded? ==> t == s)
            && (status.Succeeded? ==> t == s.(replay := ReplaySaving))
  {
    hide Enabled, Demand, Ids, Taken, Numberable, Participants;
    ParticipantCount(Enabled(streams), Replay);
  }

  /** A save ends with the poll that finds the worker finished, or with the wait for it; replay is then running. */
  lemma SaveEndsExactly(streams: seq<ConfiguredStream>, s: Engine, finished: bool)
    requires Coherent(Enabled(streams), s)
    ensures Polled(s, finished) == if s.replay.ReplaySaving? && finished then s.(replay := ReplayRunning) else s
    ensures Waited(s) == if s.replay.ReplaySaving? then s.(replay := ReplayRunning) else s
  {
    hide Enabled, Demand, Ids, Numberable;
  }

  // ---- configuration and life cycle

  /** `ApplyReplayConfiguration` never fails; replay goes on exactly if it was on and is still enabled. */
  lemma ReconfigureExactly(streams: seq<ConfiguredStream>, s: Engine, enabled: bool)
    requires EnabledDistinct(streams) && Coherent(Enabled(streams), s)
    ensures var (t, status) := Reconfigured(streams, s, enabled);
            && status == Succeeded && t.replayEnabled == enabled
            && (t.ReplayOn() <==> s.ReplayOn() && enabled) && t.recording == s.recording && t.epoch == s.epoch
            && (s.ReplayOn() && enabled ==> t.replay == s.replay)
  {
    hide Enabled, Demand, Ids, Trimmed, Numberable, ReplayStopped;
    StopReplayExactly(streams, s);
  }

  /** `Initialize` succeeds exactly on a fresh session with registrable streams; afterwards it changes nothing. */
  lemma InitializeExactly(streams: seq<ConfiguredStream>, s: Engine, count: nat)
    requires Coherent(Enabled(streams), s)
    ensures var t := Initialized(streams, s, count);
            && (s.initialized ==> t == s)
            && (t.initialized <==> s.initialized || (s.streamCount == 0 && Numberable(Enabled(streams))))
            && (!t.initialized ==> t.infra.Failed?)
            && t.recording == s.recording && t.replay == s.replay && t.encoders == s.encoders && t.epoch == s.epoch
            && (t.initialized ==> t.streamCount == |Enabled(streams)|)
  {
    hide Enabled, Demand, Ids, Numberable;
  }

  /** `Shutdown` ends with both consumers off, no capture and no active encoder, and can be followed by another
      start. */
  lemma ShutdownExactly(streams: seq<ConfiguredStream>, s: Engine)
    requires EnabledDistinct(streams) && Coherent(Enabled(streams), s)
    ensures var t := ShutDown(streams, s);
            && t.Off() && !t.running && t.encoders.active == {} && !t.recordingConsumer
            && t.initialized == s.initialized && t.epoch == s.epoch && t.streamCount == s.streamCount
            && t.infra.Idle? && t.replayEnabled == s.replayEnabled
  {
    hide Enabled, Demand, Ids, Trimmed, Numberable, RecordingStopped, ReplayStopped, Step;
    StopReplayExactly(streams, s);
    ReplayStopSteps(streams, s, Command.StopReplay);
    StopRecordingExactly(streams, ReplayStopped(streams, s).0);
    CommandSteps(streams, s, Command.Shutdown);
    hide EnabledDistinct;
  }
}
