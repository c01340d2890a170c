/** The control engine as functions on its state: two consumers, recording and replay, share one capture session and
    one set of encoders. Each command is one function. */
module ControlModel {
  import opened CaptureConfiguration
  import opened Encoders
  import opened EncoderDemand

  datatype CaptureInfrastructureState = Idle | Active | Stopping | Failed

  datatype RecordingConsumerState = RecordingOff | RecordingStarting | RecordingRunning | RecordingStopping

  datatype ReplayConsumerState = ReplayOff | ReplayStarting | ReplayRunning | ReplaySaving | ReplayStopping

  datatype CommandStatus = Succeeded | NoOp | InvalidState | CommandFailed

  /** `recordingConsumer` and `replayConsumer` say whether the consumer object exists; `running`, `retention` and
      `streamCount` are the capture session's. */
  datatype Engine = Engine(initialized: bool, recording: RecordingConsumerState, replay: ReplayConsumerState,
                           infra: CaptureInfrastructureState, epoch: nat, replayEnabled: bool,
                           recordingConsumer: bool, replayConsumer: bool,
                           running: bool, retention: bool, streamCount: nat, encoders: EncoderState)
  {
    predicate RecordingOn() {
      !recording.RecordingOff?
    }

    predicate ReplayOn() {
      !replay.ReplayOff?
    }

    predicate Off() {
      !RecordingOn() && !ReplayOn()
    }
  }

  // ---- registration

  /** The enabled streams can be registered under byte ids 0, 1, 2, … */
  ghost predicate Numberable(e: seq<ConfiguredStream>) {
    1 <= |e| < ID_COUNT && Registrable(e)
  }

  ghost predicate Registrable(e: seq<ConfiguredStream>) {
    && (forall k :: 0 <= k < |e| ==> e[k].name != "" && e[k].config.width > 0 && e[k].config.height > 0)
    && (forall j, k :: 0 <= j < k < |e| ==> e[j].name != e[k].name)
  }

  /** `count` is the number of streams that a failed registration leaves behind. */
  ghost function Initialized(streams: seq<ConfiguredStream>, s: Engine, count: nat): Engine {
    if s.initialized then s
    else if !s.running && s.streamCount == 0 && Numberable(Enabled(streams)) then
      s.(initialized := true, streamCount := |Enabled(streams)|)
    else s.(infra := Failed, streamCount := count)
  }

  // ---- capture and encoders

  function CaptureEnsured(s: Engine): (Engine, bool) {
    if s.infra.Active? && s.running then (s, true)
    else if s.infra.Failed? || s.running || s.streamCount == 0 then (s.(infra := Failed), false)
    else (s.(running := true, epoch := s.epoch + 1, infra := Active), true)
  }

  /** Sets the retention, then starts capture, then the encoders. */
  function BroughtUp(streams: seq<ConfiguredStream>, s: Engine, retention: bool): (Engine, bool) {
    var (t, ok) := CaptureEnsured(s.(retention := retention));
    if !ok then (t, false)
    else
      var (x, done) := Reconciled(streams, t.RecordingOn(), t.ReplayOn(), t.encoders);
      (t.(encoders := x), done)
  }

  function UndemandedReleased(streams: seq<ConfiguredStream>, s: Engine): Engine {
    s.(encoders := Trimmed(streams, s.RecordingOn(), s.ReplayOn(), s.encoders))
  }

  function StoppedIfUnused(streams: seq<ConfiguredStream>, s: Engine): Engine {
    if !s.Off() then s
    else UndemandedReleased(streams, s.(running := false, retention := false, infra := Idle))
  }

  // ---- commands

  function RecordingStarted(streams: seq<ConfiguredStream>, s: Engine, paths: nat, consumerStarts: bool):
    (Engine, CommandStatus)
  {
    if !s.initialized then (s, InvalidState)
    else if s.recording.RecordingRunning? || s.recording.RecordingStarting? then (s, NoOp)
    else if !s.recording.RecordingOff? || paths != |Taken(Enabled(streams), Recording)| || paths == 0 then
      (s, InvalidState)
    else if !consumerStarts then (s.(recordingConsumer := false), CommandFailed)
    else LaunchedRecording(streams, s.(recordingConsumer := true))
  }

  function LaunchedRecording(streams: seq<ConfiguredStream>, s: Engine): (Engine, CommandStatus) {
    var (m, ok) := BroughtUp(streams, s.(recording := RecordingStarting), s.ReplayOn());
    if !ok || !m.running then
      (StoppedIfUnused(streams, m.(recording := RecordingOff, recordingConsumer := false)), CommandFailed)
    else (m.(recording := RecordingRunning), Succeeded)
  }

  function RecordingStopped(streams: seq<ConfiguredStream>, s: Engine): (Engine, CommandStatus) {
    if s.recording.RecordingOff? then (s, NoOp)
    else if !s.recordingConsumer then (s.(recording := RecordingOff), CommandFailed)
    else
      var t := UndemandedReleased(streams, s.(recording := RecordingOff, recordingConsumer := false));
      (StoppedIfUnused(streams, t), Succeeded)
  }

  function ReplayStarted(streams: seq<ConfiguredStream>, s: Engine): (Engine, CommandStatus) {
    if !s.initialized || !s.replayEnabled then (s, InvalidState)
    else if s.replay.ReplayStarting? || s.replay.ReplayRunning? || s.replay.ReplaySaving? then (s, NoOp)
    else if !s.replay.ReplayOff? || |Taken(Enabled(streams), Replay)| == 0 then (s, InvalidState)
    else LaunchedReplay(streams, s.(replayConsumer := true))
  }

  function LaunchedReplay(streams: seq<ConfiguredStream>, s: Engine): (Engine, CommandStatus) {
    var (m, ok) := BroughtUp(streams, s.(replay := ReplayStarting), true);
    if !ok || !m.running then
      (StoppedIfUnused(streams, m.(replay := ReplayOff, retention := false)), CommandFailed)
    else (m.(replay := ReplayRunning), Succeeded)
  }

  function ReplayStopped(streams: seq<ConfiguredStream>, s: Engine): (Engine, CommandStatus) {
    if s.replay.ReplayOff? then (s, NoOp)
    else
      var t := UndemandedReleased(streams, s.(replay := ReplayOff, retention := false));
      (StoppedIfUnused(streams, t), Succeeded)
  }

  /** `taken` says whether the ring yields a snapshot. */
  function SaveRequested(streams: seq<ConfiguredStream>, s: Engine, paths: nat, taken: bool): (Engine, CommandStatus) {
    if !s.replayEnabled || s.replay.ReplayOff? || (!s.replay.ReplayRunning? && !s.replay.ReplaySaving?) then
      (s, InvalidState)
    else if s.replay.ReplaySaving? || paths != |Taken(Enabled(streams), Replay)| || paths == 0 then (s, InvalidState)
    else if s.infra.Failed? || !s.running then (s, CommandFailed)
    else if !taken then (s.(replayConsumer := true), CommandFailed)
    else (s.(replayConsumer := true, replay := ReplaySaving), Succeeded)
  }

  function Reconfigured(streams: seq<ConfiguredStream>, s: Engine, enabled: bool): (Engine, CommandStatus) {
    var (t, stopped) := if s.ReplayOn() && !enabled then ReplayStopped(streams, s) else (s, Succeeded);
    if !stopped.Succeeded? && !stopped.NoOp? then (t, CommandFailed) else (t.(replayEnabled := enabled), Succeeded)
  }

  /** `finished` says whether the save worker is done. */
  function Polled(s: Engine, finished: bool): Engine {
    if !s.replayConsumer || !s.replay.ReplaySaving? || !finished then s else s.(replay := ReplayRunning)
  }

  function Waited(s: Engine): Engine {
    if s.replayConsumer && s.replay.ReplaySaving? then s.(replay := ReplayRunning) else s
  }

  function ShutDown(streams: seq<ConfiguredStream>, s: Engine): Engine {
    if !s.initialized && s.infra.Idle? then s
    else
      var t := RecordingStopped(streams, ReplayStopped(streams, s).0).0;
      t.(running := false, retention := false, infra := Idle, encoders := Trimmed(streams, false, false, t.encoders))
  }

  // ---- sequences of commands

  datatype Command =
    | Initialize(count: nat)
    | StartRecording(paths: nat, consumerStarts: bool)
    | StopRecording
    | StartReplay
    | StopReplay
    | SaveReplay(paths: nat, taken: bool)
    | ApplyReplayConfiguration(enabled: bool)
    | PollReplaySave(finished: bool)
    | WaitForReplaySave
    | Shutdown

  ghost function Commanded(streams: seq<ConfiguredStream>, s: Engine, c: Command): Engine {
    match c
    case Initialize(count) => Initialized(streams, s, count)
    case StartRecording(paths, consumerStarts) => RecordingStarted(streams, s, paths, consumerStarts).0
    case StopRecording => RecordingStopped(streams, s).0
    case StartReplay => ReplayStarted(streams, s).0
    case StopReplay => ReplayStopped(streams, s).0
    case SaveReplay(paths, taken) => SaveRequested(streams, s, paths, taken).0
    case ApplyReplayConfiguration(enabled) => Reconfigured(streams, s, enabled).0
    case PollReplaySave(finished) => Polled(s, finished)
    case WaitForReplaySave => Waited(s)
    case Shutdown => ShutDown(streams, s)
  }

  /** The engine after the first `k` commands. */
  ghost function At(streams: seq<ConfiguredStream>, s: Engine, cs: seq<Command>, k: nat): Engine
    requires k <= |cs|
  {
    if k == 0 then s else Commanded(streams, At(streams, s, cs, k - 1), cs[k - 1])
  }
}
