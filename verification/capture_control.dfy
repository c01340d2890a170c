/** The control engine as the program runs it, over a capture session and an encoder controller of its own. */
module CaptureControl {
  import opened Packets
  import opened CaptureConfiguration
  import opened Encoders
  import opened EncoderDemand
  import opened ControlModel
  import opened ControlTheorems
  import CaptureRing
  import CaptureSession
  import LiveRecorderModel
  import ReplaySave

  datatype ReplayConfiguration = ReplayConfiguration(enabled: bool, memoryBudget: nat, targetDuration: nat)

  // ---- registration

  ghost predicate RegisteredAs(streams: seq<CaptureRing.StreamState>, e: seq<ConfiguredStream>) {
    |streams| == |e| && forall k :: 0 <= k < |e| ==> streams[k].name == e[k].name
  }

  lemma RegistrableSnoc(e: seq<ConfiguredStream>, s: ConfiguredStream, streams: seq<CaptureRing.StreamState>)
    requires RegisteredAs(streams, e)
    ensures Registrable(e + [s]) <==>
              Registrable(e) && s.name != "" && s.config.width > 0 && s.config.height > 0
              && forall t :: t in streams ==> t.name != s.name
  {
    var f := e + [s];
    assert forall k :: 0 <= k < |e| ==> f[k] == e[k];
    if Registrable(f) {
      forall t | t in streams ensures t.name != s.name {
        var k :| 0 <= k < |streams| && streams[k] == t;
        assert f[k].name != f[|e|].name;
      }
      assert forall j, k :: 0 <= j < k < |e| ==> f[j].name != f[k].name;
    }
    if Registrable(e) && forall t :: t in streams ==> t.name != s.name {
      forall j, k | 0 <= j < k < |f| ensures f[j].name != f[k].name {
        if k == |e| {
          assert streams[j] in streams;
        }
      }
    }
  }

  lemma RegistrablePrefix(e: seq<ConfiguredStream>, f: seq<ConfiguredStream>)
    requires e <= f && Registrable(f)
    ensures Registrable(e)
  {
    assert forall k :: 0 <= k < |e| ==> e[k] == f[k];
  }

  lemma NothingRegistered()
    ensures RegisteredAs([], []) && Registrable([])
  {
  }

  // ---- the capture session's commands

  lemma Shape(v: CaptureSession.Ring)
    requires CaptureSession.RingOk(v)
    ensures |v.accepted| == |v.streams|
  {
  }

  /** A command on the capture session changes no more than its own switch. */
  lemma Switches(v: CaptureSession.Ring, c: CaptureSession.Command, w: CaptureSession.Ring)
    requires |v.accepted| == |v.streams| && CaptureSession.Next(v, c, w) && !c.Register?
    ensures |w.streams| == |v.streams|
    ensures w.running == (if c.Start? then v.running || |v.streams| > 0 else v.running && !c.Stop?)
    ensures w.retention == if c.SetRetention? then c.enabled else v.retention
  {
  }

  /** Packets arriving between commands do not disturb the engine. */
  lemma IngestKeepsEngine(v: CaptureSession.Ring, c: CaptureSession.Command, w: CaptureSession.Ring)
    requires |v.accepted| == |v.streams| && CaptureSession.Next(v, c, w) && c.Ingest?
    ensures w.running == v.running && w.retention == v.retention && |w.streams| == |v.streams|
  {
    Switches(v, c, w);
  }

  // ---- nothing follows a refusal

  lemma {:induction false} CreatingStops(streams: seq<ConfiguredStream>, x: EncoderState, i: nat, n: nat)
    requires i <= n <= |streams| && !CreatedUpTo(streams, x, i).1
    ensures CreatedUpTo(streams, x, n) == CreatedUpTo(streams, x, i)
  {
    hide CaptureIdOf;
    if i < n {
      CreatingStops(streams, x, i, n - 1);
    }
  }

  lemma {:induction false} ActivatingStops(streams: seq<ConfiguredStream>, recording: bool, replay: bool,
                                           x: EncoderState, i: nat, n: nat)
    requires i <= n <= |streams| && !ActivatedUpTo(streams, recording, replay, x, i).1
    ensures ActivatedUpTo(streams, recording, replay, x, n) == ActivatedUpTo(streams, recording, replay, x, i)
  {
    hide CaptureIdOf;
    if i < n {
      ActivatingStops(streams, recording, replay, x, i, n - 1);
    }
  }

  class CaptureControlEngine {
    const streams: seq<ConfiguredStream>
    const capture: CaptureSession.SynchronizedCaptureSession
    const encoders: EncoderController
    var replayConfiguration: ReplayConfiguration
    var recordingConsumer: bool
    var replayConsumer: ReplaySave.SynchronizedReplayConsumer?
    var recordingResult: Option<LiveRecorderModel.Outcome>
    var replayResult: Option<ReplaySave.SaveResult>
    var infra: CaptureInfrastructureState
    var recording: RecordingConsumerState
    var replay: ReplayConsumerState
    var initialized: bool
    var epoch: nat

    ghost function View(): Engine
      reads this, capture, encoders
    {
      Engine(initialized, recording, replay, infra, epoch, replayConfiguration.enabled, recordingConsumer,
             replayConsumer != null, capture.running, capture.replayRetentionEnabled, |capture.streams|,
             encoders.View())
    }

    ghost predicate Wired()
      reads this, capture, encoders, replayConsumer
    {
      && capture.Valid() && encoders.Valid()
      && (replayConsumer != null ==> replayConsumer.Valid() && replayConsumer.capture == capture)
      && (replay.ReplaySaving? ==> replayConsumer != null && (replayConsumer.active || replayConsumer.lastResult.Some?))
    }

    ghost predicate Valid()
      reads this, capture, encoders, replayConsumer
    {
      Wired() && EnabledDistinct(streams) && Coherent(Enabled(streams), View())
    }

    /** The engine has the capture session and the encoders to itself. */
    constructor (streams: seq<ConfiguredStream>, replayConfiguration: ReplayConfiguration,
                 capture: CaptureSession.SynchronizedCaptureSession, encoders: EncoderController)
      requires EnabledDistinct(streams) && capture.Valid() && encoders.Valid()
      requires !capture.running && encoders.active == {}
      ensures Valid() && Fresh(View()) && epoch == 0
      ensures this.streams == streams && this.capture == capture && this.encoders == encoders
    {
      this.streams, this.replayConfiguration := streams, replayConfiguration;
      this.capture, this.encoders := capture, encoders;
      recordingConsumer, replayConsumer, recordingResult, replayResult := false, null, None, None;
      infra, recording, replay, initialized, epoch := Idle, RecordingOff, ReplayOff, false, 0;
      new;
      NothingDemanded(Enabled(this.streams));
    }

    /** `before` are the streams registered so far. */
    method RegisterNext(id: nat, stream: ConfiguredStream, ghost before: seq<ConfiguredStream>) returns (ok: bool)
      requires capture.Valid() && Registrable(before)
      modifies capture
      ensures capture.Valid() && capture.running == old(capture.running)
      ensures capture.replayRetentionEnabled == old(capture.replayRetentionEnabled)
      ensures ok ==> id == |old(capture.streams)| && !capture.running && |capture.streams| == |old(capture.streams)| + 1
      ensures !ok ==> capture.streams == old(capture.streams)
      ensures RegisteredAs(old(capture.streams), before) ==>
                && (ok <==> !capture.running && id == |before| && Registrable(before + [stream]))
                && (ok ==> RegisteredAs(capture.streams, before + [stream]))
    {
      hide CaptureSession.RingOk, Registrable;
      ghost var streams := capture.streams;
      if RegisteredAs(streams, before) {
        RegistrableSnoc(before, stream, streams);
      }
      ok := capture.RegisterStream(id, stream.name, stream.config.width, stream.config.height, stream.config.tbNum,
                                   stream.config.tbDen);
    }

    method RegisterStreams() returns (ok: bool)
      requires capture.Valid()
      modifies capture
      ensures capture.Valid() && capture.running == old(capture.running)
      ensures capture.replayRetentionEnabled == old(capture.replayRetentionEnabled)
      ensures |capture.streams| >= |old(capture.streams)|
      ensures ok <==> !capture.running && |old(capture.streams)| == 0 && Numberable(Enabled(streams))
      ensures ok ==> RegisteredAs(capture.streams, Enabled(streams))
    {
      hide Enabled, CaptureSession.RingOk, Registrable, RegisteredAs;
      var captureId := 0;
      NoneEnabled();
      NothingRegistered();
      RankEnds(streams);
      assert streams[..|streams|] == streams;
      for i := 0 to |streams|
        invariant capture.Valid() && capture.running == old(capture.running)
        invariant capture.replayRetentionEnabled == old(capture.replayRetentionEnabled)
        invariant |capture.streams| >= |old(capture.streams)|
        invariant captureId == Rank(streams, i) % ID_COUNT && Rank(streams, i) <= ID_COUNT
        invariant Rank(streams, i) == 0 ==> capture.streams == old(capture.streams)
        invariant Rank(streams, i) > 0 ==> old(capture.streams) == [] && !capture.running
        invariant old(capture.streams) == [] ==> RegisteredAs(capture.streams, Enabled(streams[..i]))
        invariant Registrable(Enabled(streams[..i]))
      {
        EnabledSnoc(streams, i);
        if !streams[i].mode.Disabled? {
          var registered := RegisterNext(captureId, streams[i], Enabled(streams[..i]));
          EnabledPrefix(streams, i + 1, |streams|);
          if !registered {
            if Registrable(Enabled(streams)) {
              RegistrablePrefix(Enabled(streams[..i + 1]), Enabled(streams));
            }
            return false;
          }
          captureId := (captureId + 1) % ID_COUNT;
        }
      }
      ok := captureId > 0;
    }

    // ---- capture and encoders

    method EnsureCaptureActive() returns (ok: bool)
      requires capture.Valid()
      modifies `infra, `epoch, capture
      ensures capture.Valid() && (View(), ok) == CaptureEnsured(old(View()))
    {
      hide CaptureSession.RingOk, CaptureSession.Next;
      if infra.Active? && capture.running {
        return true;
      }
      var started := false;
      if !infra.Failed? {
        ghost var v := capture.View();
        Shape(v);
        started := capture.Start();
        Switches(v, CaptureSession.Command.Start, capture.View());
      }
      if !started {
        infra := Failed;
        return false;
      }
      epoch, infra := epoch + 1, Active;
      return true;
    }

    /** First pass: every encoder exists before the first one starts. */
    method CreateEncoders() returns (ok: bool)
      requires encoders.Valid()
      modifies encoders
      ensures encoders.Valid() && (encoders.View(), ok) == CreatedUpTo(streams, old(encoders.View()), |streams|)
    {
      hide CaptureIdOf, Played, Created;
      ghost var x := encoders.View();
      for i := 0 to |streams|
        invariant encoders.Valid() && (encoders.View(), true) == CreatedUpTo(streams, x, i)
      {
        var id := CaptureIdFor(streams, streams[i].identity);
        if id.None? || streams[i].mode.Disabled? {
          continue;
        }
        if id.value !in encoders.active {
          ok := encoders.EnsureCreated(id.value);
          if !ok {
            CreatingStops(streams, x, i + 1, |streams|);
            return false;
          }
        }
      }
      return true;
    }

    /** Second pass: starts what is demanded and inactive, and leaves the rest alone. */
    method ActivateDemanded() returns (ok: bool)
      requires encoders.Valid()
      modifies encoders
      ensures encoders.Valid()
      ensures (encoders.View(), ok) ==
              ActivatedUpTo(streams, View().RecordingOn(), View().ReplayOn(), old(encoders.View()), |streams|)
    {
      hide CaptureIdOf, Played, Activated, StreamNeedsEncoder;
      ghost var x := encoders.View();
      var recordingOn, replayOn := !recording.RecordingOff?, !replay.ReplayOff?;
      for i := 0 to |streams|
        invariant encoders.Valid() && (encoders.View(), true) == ActivatedUpTo(streams, recordingOn, replayOn, x, i)
      {
        var id := CaptureIdFor(streams, streams[i].identity);
        if id.None? || !StreamNeedsEncoder(streams[i].mode, recordingOn, replayOn) {
          continue;
        }
        if id.value !in encoders.active {
          ok := encoders.Activate(id.value);
          if !ok {
            ActivatingStops(streams, recordingOn, replayOn, x, i + 1, |streams|);
            return false;
          }
        }
      }
      return true;
    }

    method ReconcileEncoderDemand() returns (ok: bool)
      requires encoders.Valid()
      modifies encoders
      ensures encoders.Valid()
      ensures (encoders.View(), ok) ==
              Reconciled(streams, View().RecordingOn(), View().ReplayOn(), old(encoders.View()))
    {
      hide CreatedUpTo, ActivatedUpTo, Played;
      ok := CreateEncoders();
      if ok {
        ok := ActivateDemanded();
      }
    }

    /** One pass that releases what the given consumers do not need. */
    method ReleaseUndemandedEncoders()
      requires encoders.Valid()
      modifies encoders
      ensures encoders.Valid()
      ensures encoders.View() == Trimmed(streams, View().RecordingOn(), View().ReplayOn(), old(encoders.View()))
    {
      hide CaptureIdOf, Played, Released, StreamNeedsEncoder;
      ghost var x := encoders.View();
      var recordingOn, replayOn := !recording.RecordingOff?, !replay.ReplayOff?;
      for i := 0 to |streams|
        invariant encoders.Valid() && encoders.View() == ReleasedUpTo(streams, recordingOn, replayOn, x, i)
      {
        var id := CaptureIdFor(streams, streams[i].identity);
        if id.None? || StreamNeedsEncoder(streams[i].mode, recordingOn, replayOn) || id.value !in encoders.active {
          continue;
        }
        encoders.Release(id.value);
      }
    }

    method StopCaptureIfUnused()
      requires capture.Valid() && encoders.Valid()
      modifies `infra, capture, encoders
      ensures capture.Valid() && encoders.Valid() && View() == StoppedIfUnused(streams, old(View()))
    {
      hide Trimmed, Played, CaptureSession.RingOk;
      if !recording.RecordingOff? || !replay.ReplayOff? {
        return;
      }
      infra := Stopping;
      QuietCapture();
      ReleaseUndemandedEncoders();
      infra := Idle;
    }

    method QuietCapture()
      requires capture.Valid()
      modifies capture
      ensures capture.Valid() && View() == old(View()).(running := false, retention := false)
    {
      hide CaptureSession.RingOk, CaptureSession.Next;
      ghost var v := capture.View();
      Shape(v);
      capture.Stop();
      Switches(v, CaptureSession.Command.Stop, capture.View());
      SetRetention(false);
    }

    method SetRetention(enabled: bool)
      requires capture.Valid()
      modifies capture
      ensures capture.Valid() && View() == old(View()).(retention := enabled)
    {
      hide CaptureSession.RingOk, CaptureSession.Next;
      ghost var v := capture.View();
      Shape(v);
      capture.SetReplayRetentionEnabled(enabled);
      Switches(v, CaptureSession.SetRetention(enabled), capture.View());
    }

    method BringUp(retention: bool) returns (ok: bool)
      requires capture.Valid() && encoders.Valid()
      modifies `infra, `epoch, capture, encoders
      ensures capture.Valid() && encoders.Valid() && (View(), ok) == BroughtUp(streams, old(View()), retention)
    {
      hide Reconciled, Played, CaptureSession.RingOk;
      SetRetention(retention);
      ok := EnsureCaptureActive();
      if ok {
        ok := ReconcileEncoderDemand();
      }
    }

    // ---- commands

    method Initialize() returns (ok: bool)
      requires Valid()
      modifies `initialized, `infra, capture
      ensures Valid() && ok == initialized && View() == Initialized(streams, old(View()), |capture.streams|)
      ensures |capture.streams| >= |old(capture.streams)|
      ensures !old(initialized) && ok ==> RegisteredAs(capture.streams, Enabled(streams))
    {
      ghost var s := View();
      hide Enabled, Played, CaptureSession.RingOk, Registrable, Coherent, EnabledDistinct, Step;
      if initialized {
        return true;
      }
      initialized := RegisterStreams();
      if !initialized {
        infra := Failed;
      }
      CommandSteps(streams, s, Command.Initialize(|capture.streams|));
      return initialized;
    }

    /** `consumerStarts` says whether the recording consumer comes up. */
    method StartRecording(paths: nat, consumerStarts: bool) returns (status: CommandStatus)
      requires Valid()
      modifies `recording, `recordingConsumer, `recordingResult, `infra, `epoch, capture, encoders
      ensures Valid() && (View(), status) == RecordingStarted(streams, old(View()), paths, consumerStarts)
      ensures recordingResult == if status.NoOp? || status.InvalidState? then old(recordingResult) else None
    {
      CommandSteps(streams, View(), Command.StartRecording(paths, consumerStarts));
      hide Enabled, Played, CaptureSession.RingOk, Coherent, EnabledDistinct, Step, RecordingStarted;
      status := TryStartRecording(paths, consumerStarts);
    }

    method TryStartRecording(paths: nat, consumerStarts: bool) returns (status: CommandStatus)
      requires capture.Valid() && encoders.Valid()
      modifies `recording, `recordingConsumer, `recordingResult, `infra, `epoch, capture, encoders
      ensures capture.Valid() && encoders.Valid()
      ensures (View(), status) == RecordingStarted(streams, old(View()), paths, consumerStarts)
      ensures recordingResult == if status.NoOp? || status.InvalidState? then old(recordingResult) else None
    {
      hide Enabled, Played, CaptureSession.RingOk, LaunchedRecording, Taken;
      if !initialized {
        return InvalidState;
      }
      if recording.RecordingRunning? || recording.RecordingStarting? {
        return NoOp;
      }
      var ids := SelectedCaptureIds(streams, Recording);
      if !recording.RecordingOff? || paths != |ids| || paths == 0 {
        return InvalidState;
      }
      recordingResult := None;
      if !consumerStarts {
        recordingConsumer := false;
        return CommandFailed;
      }
      recordingConsumer := true;
      status := LaunchRecording();
    }

    method LaunchRecording() returns (status: CommandStatus)
      requires capture.Valid() && encoders.Valid() && recording.RecordingOff?
      modifies `recording, `recordingConsumer, `infra, `epoch, capture, encoders
      ensures capture.Valid() && encoders.Valid() && (View(), status) == LaunchedRecording(streams, old(View()))
      ensures status.Succeeded? || status.CommandFailed?
    {
      hide Played, CaptureSession.RingOk, BroughtUp, StoppedIfUnused;
      var replayOn := !replay.ReplayOff?;
      recording := RecordingStarting;
      ghost var s := View();
      assert s == old(View()).(recording := RecordingStarting);
      var ok := BringUp(replayOn);
      hide View;
      if !ok || !capture.running {
        DropRecording();
        return CommandFailed;
      }
      recording := RecordingRunning;
      return Succeeded;
    }

    method DropRecording()
      requires capture.Valid() && encoders.Valid()
      modifies `recording, `recordingConsumer, `infra, capture, encoders
      ensures capture.Valid() && encoders.Valid()
      ensures View() == StoppedIfUnused(streams, old(View()).(recording := RecordingOff, recordingConsumer := false))
    {
      hide Played, CaptureSession.RingOk, StoppedIfUnused;
      recordingConsumer, recording := false, RecordingOff;
      StopCaptureIfUnused();
    }

    /** `outcome` is what the recording consumer reports when it has drained. */
    method StopRecording(outcome: LiveRecorderModel.Outcome) returns (status: CommandStatus)
      requires Valid()
      modifies `recording, `recordingConsumer, `recordingResult, `infra, capture, encoders
      ensures Valid() && (View(), status) == RecordingStopped(streams, old(View()))
      ensures recordingResult == if status.Succeeded? then Some(outcome) else old(recordingResult)
    {
      CommandSteps(streams, View(), Command.StopRecording);
      hide Enabled, Played, CaptureSession.RingOk, Coherent, EnabledDistinct, Step, RecordingStopped;
      status := TryStopRecording(outcome);
    }

    method TryStopRecording(outcome: LiveRecorderModel.Outcome) returns (status: CommandStatus)
      requires capture.Valid() && encoders.Valid()
      modifies `recording, `recordingConsumer, `recordingResult, `infra, capture, encoders
      ensures capture.Valid() && encoders.Valid() && (View(), status) == RecordingStopped(streams, old(View()))
      ensures recordingResult == if status.Succeeded? then Some(outcome) else old(recordingResult)
    {
      hide Played, CaptureSession.RingOk, Trimmed;
      if recording.RecordingOff? {
        return NoOp;
      }
      if !recordingConsumer {
        recording := RecordingOff;
        return CommandFailed;
      }
      recording, recordingResult, recordingConsumer := RecordingStopping, Some(outcome), false;
      recording := RecordingOff;
      ReleaseUndemandedEncoders();
      StopCaptureIfUnused();
      return Succeeded;
    }

    method StartReplay() returns (status: CommandStatus)
      requires Valid()
      modifies `replay, `replayConsumer, `replayResult, `infra, `epoch, capture, encoders
      ensures Valid() && (View(), status) == ReplayStarted(streams, old(View()))
      ensures replayConsumer == old(replayConsumer) || fresh(replayConsumer)
      ensures replayResult == if status.NoOp? || status.InvalidState? then old(replayResult) else None
    {
      CommandSteps(streams, View(), Command.StartReplay);
      hide Enabled, Played, CaptureSession.RingOk, Coherent, EnabledDistinct, Step, ReplayStarted;
      status := TryStartReplay();
    }

    method TryStartReplay() returns (status: CommandStatus)
      requires Wired()
      modifies `replay, `replayConsumer, `replayResult, `infra, `epoch, capture, encoders
      ensures Wired() && (View(), status) == ReplayStarted(streams, old(View()))
      ensures replayConsumer == old(replayConsumer) || fresh(replayConsumer)
      ensures replayResult == if status.NoOp? || status.InvalidState? then old(replayResult) else None
    {
      hide Enabled, Played, CaptureSession.RingOk, LaunchedReplay, Taken;
      if !initialized || !replayConfiguration.enabled {
        return InvalidState;
      }
      if replay.ReplayStarting? || replay.ReplayRunning? || replay.ReplaySaving? {
        return NoOp;
      }
      var ids := SelectedCaptureIds(streams, Replay);
      if !replay.ReplayOff? || |ids| == 0 {
        return InvalidState;
      }
      replayResult := None;
      ProvideReplayConsumer();
      status := LaunchReplay();
    }

    method LaunchReplay() returns (status: CommandStatus)
      requires capture.Valid() && encoders.Valid() && replay.ReplayOff? && replayConsumer != null
      modifies `replay, `infra, `epoch, capture, encoders
      ensures capture.Valid() && encoders.Valid() && (View(), status) == LaunchedReplay(streams, old(View()))
      ensures (status.Succeeded? || status.CommandFailed?) && !replay.ReplaySaving?
    {
      hide Played, CaptureSession.RingOk, BroughtUp, StoppedIfUnused;
      replay := ReplayStarting;
      var ok := BringUp(true);
      if !ok || !capture.running {
        replay := ReplayOff;
        SetRetention(false);
        StopCaptureIfUnused();
        return CommandFailed;
      }
      replay := ReplayRunning;
      return Succeeded;
    }

    method ProvideReplayConsumer()
      requires replayConsumer != null ==> replayConsumer.Valid() && replayConsumer.capture == capture
      modifies `replayConsumer
      ensures replayConsumer != null && replayConsumer.Valid() && replayConsumer.capture == capture
      ensures replayConsumer == old(replayConsumer) || fresh(replayConsumer)
      ensures old(replayConsumer) != null ==> replayConsumer == old(replayConsumer)
    {
      if replayConsumer == null {
        replayConsumer := new ReplaySave.SynchronizedReplayConsumer(capture);
      }
    }

    /** A save in progress is awaited, but its result is not kept. */
    method StopReplay() returns (status: CommandStatus)
      requires Valid()
      modifies `replay, `replayResult, `infra, capture, encoders, replayConsumer
      ensures Valid() && (View(), status) == ReplayStopped(streams, old(View()))
      ensures replayResult == old(replayResult)
    {
      CommandSteps(streams, View(), Command.StopReplay);
      hide Enabled, Played, CaptureSession.RingOk, Coherent, EnabledDistinct, Step, ReplayStopped;
      status := TryStopReplay();
    }

    method TryStopReplay() returns (status: CommandStatus)
      requires capture.Valid() && encoders.Valid() && (replayConsumer != null ==> replayConsumer.Valid())
      modifies `replay, `replayResult, `infra, capture, encoders, replayConsumer
      ensures capture.Valid() && encoders.Valid() && (View(), status) == ReplayStopped(streams, old(View()))
      ensures replayConsumer != null ==> replayConsumer.Valid() && (status.Succeeded? ==> !replayConsumer.active)
      ensures replayConsumer != null && status.NoOp? ==> replayConsumer.active == old(replayConsumer.active)
      ensures replayResult == old(replayResult)
    {
      hide Played, CaptureSession.RingOk, Trimmed, ReplaySave.Saves;
      if replay.ReplayOff? {
        return NoOp;
      }
      replay := ReplayStopping;
      FinishSave();
      replay := ReplayOff;
      SetRetention(false);
      ReleaseUndemandedEncoders();
      StopCaptureIfUnused();
      return Succeeded;
    }

    /** Joins the worker; its result is kept only in the Saving state. */
    method FinishSave()
      requires replayConsumer != null ==> replayConsumer.Valid()
      modifies `replay, `replayResult, replayConsumer
      ensures View() == Waited(old(View()))
      ensures replayConsumer != null ==> replayConsumer.Valid() && !replayConsumer.active
      ensures replayResult == if replayConsumer != null && old(replay).ReplaySaving? then replayConsumer.lastResult
                              else old(replayResult)
      ensures replayConsumer != null && old(replayConsumer.worker).None? ==>
                replayConsumer.lastResult == old(replayConsumer.lastResult)
      ensures replayConsumer != null && old(replayConsumer.worker).Some? ==>
                replayConsumer.lastResult.Some? &&
                ReplaySave.Saves(old(replayConsumer.worker).value, replayConsumer.lastResult.value)
    {
      hide ReplaySave.Saves;
      if replayConsumer == null {
        return;
      }
      replayConsumer.Wait();
      if replay.ReplaySaving? {
        replayResult, replay := replayConsumer.lastResult, ReplayRunning;
      }
    }

    /** The save is a snapshot of the ring at this moment; `taken` says whether the ring yields one. */
    method SaveReplay(media: seq<ReplaySave.Medium>) returns (status: CommandStatus, ghost taken: bool)
      requires Valid()
      modifies `replay, `replayConsumer, replayConsumer
      ensures Valid() && (View(), status) == SaveRequested(streams, old(View()), |media|, taken)
      ensures replayConsumer == old(replayConsumer) || fresh(replayConsumer)
      ensures status.Succeeded? ==>
                && capture.Valid() && replayConsumer != null && replayConsumer.worker.Some?
                && ReplaySave.JobOf(capture.View(), Wrapped(Taken(Enabled(streams), Replay)),
                                    replayConfiguration.targetDuration, replayConsumer.worker.value)
    {
      ghost var s := View();
      SavingStaysCoherent(Enabled(streams), s);
      hide Enabled, Played, CaptureSession.RingOk, Coherent, EnabledDistinct, Taken, ReplaySave.JobOf;
      taken := false;
      var ids := SelectedCaptureIds(streams, Replay);
      if !replayConfiguration.enabled || replay.ReplayOff? || (!replay.ReplayRunning? && !replay.ReplaySaving?) {
        return InvalidState, taken;
      }
      if replay.ReplaySaving? || |media| != |ids| || |media| == 0 {
        return InvalidState, taken;
      }
      if infra.Failed? || !capture.running {
        return CommandFailed, taken;
      }
      var ok := RequestSave(media, ids);
      taken := ok;
      if !ok {
        return CommandFailed, taken;
      }
      replay := ReplaySaving;
      return Succeeded, taken;
    }

    method RequestSave(media: seq<ReplaySave.Medium>, ids: seq<nat>) returns (ok: bool)
      requires Wired() && ids != [] && replay.ReplayRunning?
      modifies `replayConsumer, replayConsumer
      ensures Wired() && (replayConsumer == old(replayConsumer) || fresh(replayConsumer)) && replayConsumer != null
      ensures ok ==>
                && replayConsumer.active && replayConsumer.worker.Some?
                && ReplaySave.JobOf(capture.View(), ids, replayConfiguration.targetDuration,
                                    replayConsumer.worker.value)
    {
      hide Enabled, Played, CaptureSession.RingOk, ReplaySave.JobOf;
      ProvideReplayConsumer();
      ok := replayConsumer.RequestSave(media, replayConfiguration.targetDuration, ids);
    }

    /** Stopping replay never fails, so the new configuration is always taken over. */
    method ApplyReplayConfiguration(configuration: ReplayConfiguration) returns (status: CommandStatus)
      requires Valid()
      modifies `replay, `replayResult, `infra, `replayConfiguration, capture, encoders, replayConsumer
      ensures Valid() && (View(), status) == Reconfigured(streams, old(View()), configuration.enabled)
      ensures status.Succeeded? && replayResult == old(replayResult)
      ensures replayConfiguration == configuration && capture.ringCapacityBytes == configuration.memoryBudget
    {
      ghost var s := View();
      ReconfigureSteps(streams, s, configuration.enabled);
      hide Enabled, Played, CaptureSession.RingOk, Coherent, EnabledDistinct, Step, ReplayStopped;
      if !replay.ReplayOff? && !configuration.enabled {
        var stopped := StopReplay();
      }
      SetCapacity(configuration);
      return Succeeded;
    }

    method SetCapacity(configuration: ReplayConfiguration)
      requires capture.Valid()
      modifies `replayConfiguration, capture
      ensures capture.Valid() && View() == old(View()).(replayEnabled := configuration.enabled)
      ensures replayConfiguration == configuration && capture.ringCapacityBytes == configuration.memoryBudget
    {
      hide CaptureSession.RingOk;
      replayConfiguration := configuration;
      ghost var v := capture.View();
      Shape(v);
      capture.SetRingCapacityBytes(configuration.memoryBudget);
      Switches(v, CaptureSession.SetCapacity(configuration.memoryBudget), capture.View());
    }

    /** Keeps the result of a save whose worker has finished. */
    method PollReplaySave()
      requires Valid()
      modifies `replay, `replayResult, replayConsumer
      ensures Valid()
      ensures View() == Polled(old(View()), replayConsumer != null && !old(replayConsumer.active))
      ensures replayResult ==
              if replayConsumer != null && old(replay).ReplaySaving? && !old(replayConsumer.active)
              then old(replayConsumer.lastResult) else old(replayResult)
    {
      ghost var s := View();
      SavingStaysCoherent(Enabled(streams), s);
      hide Enabled, Played, CaptureSession.RingOk, Coherent, EnabledDistinct, ReplaySave.Saves;
      if replayConsumer == null || !replay.ReplaySaving? || replayConsumer.active {
        return;
      }
      FinishSave();
    }

    method WaitForReplaySave()
      requires Valid()
      modifies `replay, `replayResult, replayConsumer
      ensures Valid() && View() == Waited(old(View())) && !replay.ReplaySaving?
      ensures old(replay).ReplaySaving? ==>
                replayConsumer != null && replayResult == replayConsumer.lastResult && replayResult.Some?
      ensures old(replay).ReplaySaving? && replayConsumer != null && old(replayConsumer.worker).Some? ==>
                replayResult.Some? && ReplaySave.Saves(old(replayConsumer.worker).value, replayResult.value)
      ensures !old(replay).ReplaySaving? ==> replayResult == old(replayResult)
    {
      ghost var s := View();
      SavingStaysCoherent(Enabled(streams), s);
      hide Enabled, Played, CaptureSession.RingOk, Coherent, EnabledDistinct, ReplaySave.Saves;
      FinishSave();
    }

    /** Everything off: no consumer, no capture, no active encoder. */
    method Shutdown(outcome: LiveRecorderModel.Outcome)
      requires Valid()
      modifies `recording, `recordingConsumer, `recordingResult, `replay, `replayResult, `infra, capture, encoders,
               replayConsumer
      ensures Valid() && View() == ShutDown(streams, old(View()))
      ensures View().Off() && !capture.running && encoders.active == {}
    {
      ShutdownSteps(streams, View());
      hide Enabled, Played, CaptureSession.RingOk, Coherent, EnabledDistinct, Step, Trimmed, RecordingStopped,
           ReplayStopped;
      if !initialized && infra.Idle? {
        return;
      }
      var replayStopped := StopReplay();
      StopTheRest(outcome);
    }

    method StopTheRest(outcome: LiveRecorderModel.Outcome)
      requires capture.Valid() && encoders.Valid()
      modifies `recording, `recordingConsumer, `recordingResult, `infra, capture, encoders
      ensures capture.Valid() && encoders.Valid()
      ensures var t := RecordingStopped(streams, old(View())).0;
              View() == t.(running := false, retention := false, infra := Idle,
                           encoders := Trimmed(streams, false, false, t.encoders))
    {
      hide Played, CaptureSession.RingOk, Trimmed, RecordingStopped;
      var recordingStopped := TryStopRecording(outcome);
      QuietCapture();
      ReleaseAll();
      infra := Idle;
    }

    /** Releases every active encoder that belongs to a configured stream. */
    method ReleaseAll()
      requires encoders.Valid()
      modifies encoders
      ensures encoders.Valid() && encoders.View() == Trimmed(streams, false, false, old(encoders.View()))
    {
      hide CaptureIdOf, Played, Released;
      ghost var x := encoders.View();
      for i := 0 to |streams|
        invariant encoders.Valid() && encoders.View() == ReleasedUpTo(streams, false, false, x, i)
      {
        var id := CaptureIdFor(streams, streams[i].identity);
        if id.Some? && id.value in encoders.active {
          encoders.Release(id.value);
        }
      }
    }
  }
}
