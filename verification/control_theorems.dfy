/** What holds of the control engine between any two commands, and over all sequences of commands. */
module ControlTheorems {
  import opened CaptureConfiguration
  import opened Encoders
  import opened EncoderDemand
  import opened ControlModel

  ghost function Demanded(e: seq<ConfiguredStream>, s: Engine): set<nat> {
    Demand(e, s.RecordingOn(), s.ReplayOn())
  }

  /** What holds between any two commands; `e` are the enabled streams. */
  ghost predicate Coherent(e: seq<ConfiguredStream>, s: Engine) {
    && Demanded(e, s) <= s.encoders.active <= Ids(e)
    && (s.Off() ==> s.encoders.active == {})
    && Settled(e, s)
  }

  ghost predicate Settled(e: seq<ConfiguredStream>, s: Engine) {
    && (s.recording.RecordingOff? || s.recording.RecordingRunning?)
    && (s.replay.ReplayOff? || s.replay.ReplayRunning? || s.replay.ReplaySaving?)
    && (s.recordingConsumer <==> s.RecordingOn())
    && (s.ReplayOn() ==> s.replayConsumer && s.replayEnabled)
    && (s.running <==> !s.Off())
    && (s.running ==> (s.retention <==> s.ReplayOn()))
    && (!s.initialized ==>
          && s.Off() && (s.infra.Idle? || s.infra.Failed?)
          && (s.infra.Failed? ==> !(s.streamCount == 0 && Numberable(e))))
    && (s.initialized ==> 1 <= s.streamCount == |e| < ID_COUNT && s.infra == if s.Off() then Idle else Active)
  }

  /** No encoder is active that nobody demands. */
  ghost predicate Clean(e: seq<ConfiguredStream>, s: Engine) {
    s.encoders.active == Demanded(e, s)
  }

  ghost predicate SameConsumers(s: Engine, t: Engine) {
    s.RecordingOn() == t.RecordingOn() && s.ReplayOn() == t.ReplayOn()
  }

  /** The encoders a command may start: what is demanded with the consumer it starts. */
  ghost function Starts(e: seq<ConfiguredStream>, s: Engine, c: Command): set<nat> {
    match c
    case StartRecording(_, _) => Demand(e, true, s.ReplayOn()) - s.encoders.active
    case StartReplay => Demand(e, s.RecordingOn(), true) - s.encoders.active
    case _ => {}
  }

  ghost function Calls(s: Engine, t: Engine): seq<EncoderCall>
    requires s.encoders.trace <= t.encoders.trace
  {
    t.encoders.trace[|s.encoders.trace|..]
  }

  /** What a command does to the encoders and the epoch, whatever its outcome. After it no encoder is left over
      exactly if no consumer is on, or the consumers changed, or none was left over and the command started none. */
  ghost predicate Step(e: seq<ConfiguredStream>, s: Engine, c: Command, t: Engine) {
    && Extends(s.encoders.trace, t.encoders.trace, Starts(e, s, c), Demanded(e, t))
    && Untouched(Calls(s, t), Demanded(e, s) * Demanded(e, t))
    && (Clean(e, t) <==> t.Off() || !SameConsumers(s, t) || (Clean(e, s) && NoActivate(Calls(s, t))))
    && (t.epoch == s.epoch || (t.epoch == s.epoch + 1 && s.Off()))
    && (s.initialized ==> t.initialized)
  }

  /** A registration never removes streams. */
  ghost predicate Legal(s: Engine, c: Command) {
    c.Initialize? ==> s.streamCount <= c.count
  }

  // ---- demand

  lemma DemandGrows(e: seq<ConfiguredStream>, recording: bool, replay: bool, recording': bool, replay': bool)
    requires (recording ==> recording') && (replay ==> replay')
    ensures Demand(e, recording, replay) <= Demand(e, recording', replay') <= Ids(e)
  {
  }

  lemma NothingDemanded(e: seq<ConfiguredStream>)
    ensures Demand(e, false, false) == {}
  {
  }

  lemma {:induction false} NoneDisabled(streams: seq<ConfiguredStream>)
    ensures forall k :: 0 <= k < |Enabled(streams)| ==> !Enabled(streams)[k].mode.Disabled?
  {
    if |streams| > 0 {
      NoneDisabled(streams[..|streams| - 1]);
    }
  }

  /** With both consumers on, every enabled stream is demanded: nothing can be left over. */
  lemma AllDemanded(streams: seq<ConfiguredStream>)
    ensures Demand(Enabled(streams), true, true) == Ids(Enabled(streams))
  {
    hide Enabled;
    NoneDisabled(streams);
    var e := Enabled(streams);
    forall k | k in Ids(e) ensures k in Demand(e, true, true) {
      assert !e[k].mode.Disabled?;
    }
  }

  // ---- pieces of commands

  /** A command that leaves the encoders alone. */
  lemma QuietStep(e: seq<ConfiguredStream>, s: Engine, c: Command, t: Engine)
    requires s.encoders == t.encoders && SameConsumers(s, t) && t.epoch == s.epoch && (s.initialized ==> t.initialized)
    requires s.Off() ==> s.encoders.active == {}
    ensures Step(e, s, c, t)
  {
    assert t.encoders.trace[|s.encoders.trace|..] == [];
    NothingDemanded(e);
  }

  /** Capture comes up, and with it only encoders that are demanded and inactive. */
  lemma BringsUp(streams: seq<ConfiguredStream>, s: Engine, m: Engine, retention: bool)
    requires EnabledDistinct(streams) && Coherent(Enabled(streams), s) && s.initialized
    requires m == s.(recording := m.recording, replay := m.replay, recordingConsumer := m.recordingConsumer,
                     replayConsumer := m.replayConsumer)
    ensures var e, (t, ok) := Enabled(streams), BroughtUp(streams, m, retention);
            && t == m.(retention := retention, running := true, infra := Active, encoders := t.encoders,
                       epoch := s.epoch + if s.Off() then 1 else 0)
            && s.encoders.active <= t.encoders.active <= s.encoders.active + Demanded(e, m)
            && Extends(s.encoders.trace, t.encoders.trace, Demanded(e, m) - s.encoders.active, Ids(e))
            && (NoActivate(Calls(s, t)) <==> t.encoders.active == s.encoders.active)
            && (ok ==> Demanded(e, m) <= t.encoders.active)
  {
    hide Enabled, Demand, Ids, Reconciled, Extends, NoActivate;
    ReconcilingMeetsDemand(streams, m.RecordingOn(), m.ReplayOn(), s.encoders);
    hide EnabledDistinct;
  }

  /** A start that went through. */
  lemma CompletedStart(streams: seq<ConfiguredStream>, s: Engine, c: Command, u: Engine, t: Engine)
    requires Coherent(Enabled(streams), s) && s.initialized && t.initialized && Settled(Enabled(streams), t)
    requires t.encoders == u.encoders && SameConsumers(t, u) && !SameConsumers(s, t)
    requires (s.RecordingOn() ==> t.RecordingOn()) && (s.ReplayOn() ==> t.ReplayOn())
    requires t.epoch == s.epoch + if s.Off() then 1 else 0
    requires Starts(Enabled(streams), s, c) == Demanded(Enabled(streams), u) - s.encoders.active
    requires s.encoders.active <= u.encoders.active <= s.encoders.active + Demanded(Enabled(streams), u)
    requires Demanded(Enabled(streams), u) <= u.encoders.active
    requires Extends(s.encoders.trace, u.encoders.trace, Demanded(Enabled(streams), u) - s.encoders.active,
                     Ids(Enabled(streams)))
    ensures Coherent(Enabled(streams), t) && Step(Enabled(streams), s, c, t)
  {
    hide Enabled, Demand, Ids, Settled, Starts;
    var e := Enabled(streams);
    DemandGrows(e, s.RecordingOn(), s.ReplayOn(), t.RecordingOn(), t.ReplayOn());
    DemandGrows(e, t.RecordingOn(), t.ReplayOn(), true, true);
    AllDemanded(streams);
  }

  /** A start that failed half way: what it started stays exactly if the other consumer is on. */
  lemma FailedStart(streams: seq<ConfiguredStream>, s: Engine, c: Command, u: Engine, m: Engine)
    requires EnabledDistinct(streams) && Coherent(Enabled(streams), s) && s.initialized
    requires m == s.(infra := Active, running := true, retention := m.retention, encoders := u.encoders,
                     epoch := s.epoch + (if s.Off() then 1 else 0), replayConsumer := m.replayConsumer)
    requires s.replayConsumer ==> m.replayConsumer
    requires !s.Off() ==> (m.retention <==> s.ReplayOn())
    requires Starts(Enabled(streams), s, c) == Demanded(Enabled(streams), u) - s.encoders.active
    requires s.encoders.active <= u.encoders.active <= s.encoders.active + Demanded(Enabled(streams), u)
    requires Extends(s.encoders.trace, u.encoders.trace, Demanded(Enabled(streams), u) - s.encoders.active,
                     Ids(Enabled(streams)))
    requires NoActivate(Calls(s, u)) <==> u.encoders.active == s.encoders.active
    ensures var t := StoppedIfUnused(streams, m);
            && Coherent(Enabled(streams), t) && Step(Enabled(streams), s, c, t)
            && t.encoders.active == if s.Off() then {} else u.encoders.active
  {
    hide Enabled, Demand, Ids, Starts, Trimmed, Extends;
    var e, t := Enabled(streams), StoppedIfUnused(streams, m);
    DemandGrows(e, s.RecordingOn(), s.ReplayOn(), true, true);
    DemandGrows(e, u.RecordingOn(), u.ReplayOn(), true, true);
    NothingDemanded(e);
    var starts := Demanded(e, u) - s.encoders.active;
    if s.Off() {
      TrimmingLeavesDemand(streams, false, false, u.encoders);
      ExtendsTwice(s.encoders.trace, u.encoders.trace, t.encoders.trace, starts, Ids(e), {}, {});
      assert starts + {} == starts && Ids(e) * {} == {};
    }
    StartedOnly(s.encoders.trace, t.encoders.trace, starts, if s.Off() then {} else Ids(e), Demanded(e, s),
                Demanded(e, t));
  }

  /** Calls that start only encoders outside `before` and stop none of `after` leave the common ones alone. */
  lemma StartedOnly(r: seq<EncoderCall>, t: seq<EncoderCall>, starts: set<nat>, keeps: set<nat>, before: set<nat>,
                    after: set<nat>)
    requires Extends(r, t, starts, keeps) && starts !! before && after <= keeps
    ensures Extends(r, t, starts, after) && Untouched(t[|r|..], before * after)
  {
  }

  /** A consumer goes off: exactly the demanded encoders stay. */
  lemma StoppedConsumer(streams: seq<ConfiguredStream>, s: Engine, c: Command, m: Engine)
    requires EnabledDistinct(streams) && Coherent(Enabled(streams), s) && s.initialized
    requires Starts(Enabled(streams), s, c) == {}
    requires m == s.(recording := m.recording, replay := m.replay, recordingConsumer := m.recordingConsumer,
                     retention := m.retention)
    requires !SameConsumers(s, m)
    requires (m.RecordingOn() ==> m.recording == s.recording) && (m.ReplayOn() ==> m.replay == s.replay)
    requires (m.recordingConsumer <==> m.RecordingOn()) && (!m.Off() ==> (m.retention <==> m.ReplayOn()))
    ensures var t := StoppedIfUnused(streams, UndemandedReleased(streams, m));
            && Coherent(Enabled(streams), t) && Step(Enabled(streams), s, c, t) && Clean(Enabled(streams), t)
            && SameConsumers(t, m) && t.replay == m.replay && t.recording == m.recording && t.epoch == s.epoch
            && t.initialized && t.replayEnabled == m.replayEnabled
  {
    hide Enabled, Demand, Ids, Starts, Trimmed, Extends, Numberable;
    var e := Enabled(streams);
    var u := UndemandedReleased(streams, m);
    var t := StoppedIfUnused(streams, u);
    DemandGrows(e, m.RecordingOn(), m.ReplayOn(), s.RecordingOn(), s.ReplayOn());
    DemandGrows(e, s.RecordingOn(), s.ReplayOn(), true, true);
    NothingDemanded(e);
    TrimmingLeavesDemand(streams, m.RecordingOn(), m.ReplayOn(), s.encoders);
    if m.Off() {
      TrimmingLeavesDemand(streams, false, false, u.encoders);
      ExtendsTwice(s.encoders.trace, u.encoders.trace, t.encoders.trace, {}, {}, {}, {});
      var none: set<nat> := {};
      assert none + none == none && none * none == none;
    }
    StartedOnly(s.encoders.trace, t.encoders.trace, {}, Demanded(e, m), Demanded(e, s), Demanded(e, t));
  }

  // ---- commands

  lemma RecordingStartSteps(streams: seq<ConfiguredStream>, s: Engine, paths: nat, consumerStarts: bool)
    requires EnabledDistinct(streams) && Coherent(Enabled(streams), s)
    ensures var t := RecordingStarted(streams, s, paths, consumerStarts).0;
            Coherent(Enabled(streams), t) && Step(Enabled(streams), s, StartRecording(paths, consumerStarts), t)
  {
    hide Enabled, Demand, Ids, BroughtUp, StoppedIfUnused, Taken, Numberable, Extends, NoActivate;
    var e, c := Enabled(streams), StartRecording(paths, consumerStarts);
    var (t, status) := RecordingStarted(streams, s, paths, consumerStarts);
    if t == s {
      QuietStep(e, s, c, t);
    } else {
      var starting := s.(recording := RecordingStarting, recordingConsumer := true);
      BringsUp(streams, s, starting, s.ReplayOn());
      var (m, ok) := BroughtUp(streams, starting, s.ReplayOn());
      hide Step, Coherent, EnabledDistinct;
      if ok {
        CompletedStart(streams, s, c, m, t);
      } else {
        FailedStart(streams, s, c, m, m.(recording := RecordingOff, recordingConsumer := false));
      }
    }
  }

  lemma ReplayStartSteps(streams: seq<ConfiguredStream>, s: Engine)
    requires EnabledDistinct(streams) && Coherent(Enabled(streams), s)
    ensures var t := ReplayStarted(streams, s).0;
            Coherent(Enabled(streams), t) && Step(Enabled(streams), s, StartReplay, t)
  {
    hide Enabled, Demand, Ids, BroughtUp, StoppedIfUnused, Taken, Numberable, Extends, NoActivate;
    var e := Enabled(streams);
    var (t, status) := ReplayStarted(streams, s);
    if t == s {
      QuietStep(e, s, StartReplay, t);
    } else {
      var starting := s.(replay := ReplayStarting, replayConsumer := true);
      BringsUp(streams, s, starting, true);
      var (m, ok) := BroughtUp(streams, starting, true);
      hide Step, Coherent, EnabledDistinct;
      if ok {
        CompletedStart(streams, s, StartReplay, m, t);
      } else {
        FailedStart(streams, s, StartReplay, m, m.(replay := ReplayOff, retention := false));
      }
    }
  }

  lemma RecordingStopSteps(streams: seq<ConfiguredStream>, s: Engine, c: Command)
    requires EnabledDistinct(streams) && Coherent(Enabled(streams), s) && Starts(Enabled(streams), s, c) == {}
    ensures var t := RecordingStopped(streams, s).0;
            && Coherent(Enabled(streams), t) && Step(Enabled(streams), s, c, t)
            && !t.RecordingOn() && t.replay == s.replay && t.epoch == s.epoch && (s.initialized <==> t.initialized)
            && (s.RecordingOn() ==> Clean(Enabled(streams), t))
  {
    hide Enabled, Demand, Ids, StoppedIfUnused, UndemandedReleased, Numberable, Extends, NoActivate;
    if s.RecordingOn() {
      StoppedConsumer(streams, s, c, s.(recording := RecordingOff, recordingConsumer := false));
    } else {
      QuietStep(Enabled(streams), s, c, s);
    }
  }

  lemma ReplayStopSteps(streams: seq<ConfiguredStream>, s: Engine, c: Command)
    requires EnabledDistinct(streams) && Coherent(Enabled(streams), s) && Starts(Enabled(streams), s, c) == {}
    ensures var t := ReplayStopped(streams, s).0;
            && Coherent(Enabled(streams), t) && Step(Enabled(streams), s, c, t)
            && !t.ReplayOn() && t.recording == s.recording && t.epoch == s.epoch && (s.initialized <==> t.initialized)
            && (s.ReplayOn() ==> Clean(Enabled(streams), t))
  {
    hide Enabled, Demand, Ids, StoppedIfUnused, UndemandedReleased, Numberable, Extends, NoActivate;
    if s.ReplayOn() {
      StoppedConsumer(streams, s, c, s.(replay := ReplayOff, retention := false));
    } else {
      QuietStep(Enabled(streams), s, c, s);
    }
  }

  lemma ReconfigureSteps(streams: seq<ConfiguredStream>, s: Engine, enabled: bool)
    requires EnabledDistinct(streams) && Coherent(Enabled(streams), s)
    ensures var (t, status) := Reconfigured(streams, s, enabled);
            && Coherent(Enabled(streams), t) && Step(Enabled(streams), s, ApplyReplayConfiguration(enabled), t)
            && status.Succeeded? && t.replayEnabled == enabled
  {
    hide Enabled, Demand, Ids, Numberable, Extends, NoActivate, StoppedIfUnused, UndemandedReleased;
    var c := ApplyReplayConfiguration(enabled);
    ReplayStopSteps(streams, s, c);
    QuietStep(Enabled(streams), s, c, s.(replayEnabled := enabled));
  }

  lemma {:induction false} NothingToRelease(streams: seq<ConfiguredStream>, x: EncoderState, n: nat)
    requires n <= |streams| && x.active == {}
    ensures ReleasedUpTo(streams, false, false, x, n) == x
  {
    hide CaptureIdOf;
    if n > 0 {
      NothingToRelease(streams, x, n - 1);
    }
  }

  lemma ShutdownSteps(streams: seq<ConfiguredStream>, s: Engine)
    requires EnabledDistinct(streams) && Coherent(Enabled(streams), s)
    ensures var t := ShutDown(streams, s);
            && Coherent(Enabled(streams), t) && Step(Enabled(streams), s, Shutdown, t)
            && t.Off() && !t.running && t.encoders.active == {}
  {
    hide Enabled, Demand, Ids, Numberable, Extends, NoActivate, ReplayStopped, RecordingStopped, ReleasedUpTo;
    var e := Enabled(streams);
    ReplayStopSteps(streams, s, Shutdown);
    var m := ReplayStopped(streams, s).0;
    RecordingStopSteps(streams, m, Shutdown);
    var n := RecordingStopped(streams, m).0;
    NothingToRelease(streams, n.encoders, |streams|);
    ExtendsTwice(s.encoders.trace, m.encoders.trace, n.encoders.trace, {}, Demanded(e, m), {}, Demanded(e, n));
    QuietStep(e, s, Shutdown, s);
    NothingDemanded(e);
    var none: set<nat> := {};
    assert none + none == none && Demanded(e, n) == none;
    assert Demanded(e, m) * none == none && Demanded(e, s) * none == none;
    StartedOnly(s.encoders.trace, n.encoders.trace, none, none, Demanded(e, s), none);
  }

  /** Every command keeps the engine coherent and takes one step. */
  lemma CommandSteps(streams: seq<ConfiguredStream>, s: Engine, c: Command)
    requires EnabledDistinct(streams) && Coherent(Enabled(streams), s) && Legal(s, c)
    ensures var t := Commanded(streams, s, c); Coherent(Enabled(streams), t) && Step(Enabled(streams), s, c, t)
  {
    match c
    case StartRecording(paths, consumerStarts) => RecordingStartSteps(streams, s, paths, consumerStarts);
    case StopRecording => RecordingStopSteps(streams, s, c);
    case StartReplay => ReplayStartSteps(streams, s);
    case StopReplay => ReplayStopSteps(streams, s, c);
    case ApplyReplayConfiguration(enabled) => ReconfigureSteps(streams, s, enabled);
    case Shutdown => ShutdownSteps(streams, s);
    case _ => EasySteps(streams, s, c);
  }

  lemma EasySteps(streams: seq<ConfiguredStream>, s: Engine, c: Command)
    requires Coherent(Enabled(streams), s) && Legal(s, c)
    requires c.Initialize? || c.SaveReplay? || c.PollReplaySave? || c.WaitForReplaySave?
    ensures var t := Commanded(streams, s, c); Coherent(Enabled(streams), t) && Step(Enabled(streams), s, c, t)
  {
    hide Enabled, Demand, Ids, Taken, Extends, NoActivate, Registrable;
    QuietStep(Enabled(streams), s, c, Commanded(streams, s, c));
    hide Step;
  }

  /** A failed start leaves everything it started active exactly if the other consumer is on; from a clean state the
      result is clean exactly if both consumers were off or nothing had been started. */
  lemma FailedStartExactly(streams: seq<ConfiguredStream>, s: Engine, c: Command)
    requires EnabledDistinct(streams) && Coherent(Enabled(streams), s) && Clean(Enabled(streams), s)
    requires (c.StartRecording? && RecordingStarted(streams, s, c.paths, c.consumerStarts).1.CommandFailed?) ||
             (c.StartReplay? && ReplayStarted(streams, s).1.CommandFailed?)
    ensures var e, t := Enabled(streams), Commanded(streams, s, c);
            && SameConsumers(s, t) && s.encoders.trace <= t.encoders.trace
            && (Clean(e, t) <==> s.Off() || NoActivate(Calls(s, t)))
            && (c.StartReplay? || c.consumerStarts ==>
                  t.encoders.active == if s.Off() then {}
                                       else Reconciled(streams, s.RecordingOn() || c.StartRecording?,
                                                       s.ReplayOn() || c.StartReplay?, s.encoders).0.active)
  {
    hide Enabled, Demand, Ids, Reconciled, Trimmed, Taken, Numberable, NoActivate;
    CommandSteps(streams, s, c);
    hide EnabledDistinct, Untouched;
  }

  /** Moving between running and saving keeps the engine coherent. */
  lemma SavingStaysCoherent(e: seq<ConfiguredStream>, s: Engine)
    requires Coherent(e, s)
    ensures s.ReplayOn() ==>
              && Coherent(e, s.(replay := ReplayRunning))
              && Coherent(e, s.(replay := ReplaySaving, replayConsumer := true))
    ensures s.ReplayOn() ==> s == s.(replayConsumer := true)
    ensures s.ReplayOn() ==> s.running && s.replayEnabled && !s.infra.Failed?
  {
    hide Demand, Ids, Numberable;
  }

  // ---- whole runs

  /** An engine as it is constructed. */
  ghost predicate Fresh(s: Engine) {
    && !s.initialized && s.recording.RecordingOff? && s.replay.ReplayOff? && s.infra.Idle?
    && !s.recordingConsumer && !s.replayConsumer && !s.running && s.encoders.active == {}
  }

  ghost predicate LegalRun(streams: seq<ConfiguredStream>, s: Engine, cs: seq<Command>) {
    forall k :: 0 <= k < |cs| ==> Legal(At(streams, s, cs, k), cs[k])
  }

  /** Between any two commands of any run the engine is coherent. */
  lemma {:induction false} RunCoherent(streams: seq<ConfiguredStream>, s: Engine, cs: seq<Command>, k: nat)
    requires EnabledDistinct(streams) && Fresh(s) && LegalRun(streams, s, cs) && k <= |cs|
    ensures Coherent(Enabled(streams), At(streams, s, cs, k))
  {
    hide Enabled, Demand, Ids, Commanded, Step, EnabledDistinct;
    if k == 0 {
      NothingDemanded(Enabled(streams));
    } else {
      hide Coherent;
      RunCoherent(streams, s, cs, k - 1);
      CommandSteps(streams, At(streams, s, cs, k - 1), cs[k - 1]);
    }
  }

  lemma RunSteps(streams: seq<ConfiguredStream>, s: Engine, cs: seq<Command>, k: nat)
    requires EnabledDistinct(streams) && Fresh(s) && LegalRun(streams, s, cs) && k < |cs|
    ensures Coherent(Enabled(streams), At(streams, s, cs, k + 1))
    ensures Step(Enabled(streams), At(streams, s, cs, k), cs[k], At(streams, s, cs, k + 1))
  {
    hide Enabled, Commanded, Step, EnabledDistinct, Coherent;
    RunCoherent(streams, s, cs, k);
    CommandSteps(streams, At(streams, s, cs, k), cs[k]);
  }

  lemma {:induction false} TraceGrows(streams: seq<ConfiguredStream>, s: Engine, cs: seq<Command>, i: nat, j: nat)
    requires EnabledDistinct(streams) && Fresh(s) && LegalRun(streams, s, cs) && i <= j <= |cs|
    ensures At(streams, s, cs, i).encoders.trace <= At(streams, s, cs, j).encoders.trace
  {
    hide Enabled, Commanded, EnabledDistinct, Coherent, Fresh, LegalRun;
    if i < j {
      TraceGrows(streams, s, cs, i, j - 1);
      RunSteps(streams, s, cs, j - 1);
    }
  }

  /** A handoff never restarts a shared encoder: while an id stays demanded between commands, no command starts or
      stops its encoder, whichever consumers come and go. */
  lemma {:induction false} NeverRestarted(streams: seq<ConfiguredStream>, s: Engine, cs: seq<Command>, i: nat, j: nat,
                                          id: nat)
    requires EnabledDistinct(streams) && Fresh(s) && LegalRun(streams, s, cs) && i <= j <= |cs|
    requires forall k :: i <= k <= j ==> id in Demanded(Enabled(streams), At(streams, s, cs, k))
    ensures At(streams, s, cs, i).encoders.trace <= At(streams, s, cs, j).encoders.trace
    ensures Untouched(Calls(At(streams, s, cs, i), At(streams, s, cs, j)), {id})
  {
    hide Enabled, Commanded, EnabledDistinct, Coherent, Fresh, LegalRun, Demanded, Clean;
    TraceGrows(streams, s, cs, i, j);
    if i < j {
      NeverRestarted(streams, s, cs, i, j - 1, id);
      RunSteps(streams, s, cs, j - 1);
      var x, y, z := At(streams, s, cs, i), At(streams, s, cs, j - 1), At(streams, s, cs, j);
      TraceSplit(x.encoders.trace, y.encoders.trace, z.encoders.trace);
    }
  }

  /** While the same consumers stay on, encoders are left over in the end exactly if some were at the beginning or a
      command, a failed start, started one. */
  lemma {:induction false} LeftoverExactly(streams: seq<ConfiguredStream>, s: Engine, cs: seq<Command>, i: nat, j: nat)
    requires EnabledDistinct(streams) && Fresh(s) && LegalRun(streams, s, cs) && i <= j <= |cs|
    requires !At(streams, s, cs, i).Off()
    requires forall k :: i <= k <= j ==> SameConsumers(At(streams, s, cs, i), At(streams, s, cs, k))
    ensures At(streams, s, cs, i).encoders.trace <= At(streams, s, cs, j).encoders.trace
    ensures Clean(Enabled(streams), At(streams, s, cs, j)) <==>
              (Clean(Enabled(streams), At(streams, s, cs, i)) &&
               NoActivate(Calls(At(streams, s, cs, i), At(streams, s, cs, j))))
  {
    hide Enabled, Commanded, EnabledDistinct, Coherent, Fresh, LegalRun, Demanded, Clean;
    TraceGrows(streams, s, cs, i, j);
    if i < j {
      LeftoverExactly(streams, s, cs, i, j - 1);
      RunSteps(streams, s, cs, j - 1);
      var x, y, z := At(streams, s, cs, i), At(streams, s, cs, j - 1), At(streams, s, cs, j);
      TraceSplit(x.encoders.trace, y.encoders.trace, z.encoders.trace);
    }
  }

  /** The capture epoch changes only in a command issued with both consumers off. */
  lemma {:induction false} EpochIsStable(streams: seq<ConfiguredStream>, s: Engine, cs: seq<Command>, i: nat, j: nat)
    requires EnabledDistinct(streams) && Fresh(s) && LegalRun(streams, s, cs) && i <= j <= |cs|
    requires forall k :: i <= k < j ==> !At(streams, s, cs, k).Off()
    ensures At(streams, s, cs, i).epoch == At(streams, s, cs, j).epoch
  {
    hide Enabled, Commanded, EnabledDistinct, Coherent, Fresh, LegalRun;
    if i < j {
      EpochIsStable(streams, s, cs, i, j - 1);
      RunSteps(streams, s, cs, j - 1);
    }
  }

  /** The number of commands before `j` that were issued with both consumers off. */
  ghost function Restarts(streams: seq<ConfiguredStream>, s: Engine, cs: seq<Command>, j: nat): nat
    requires j <= |cs|
  {
    if j == 0 then 0
    else Restarts(streams, s, cs, j - 1) + (if At(streams, s, cs, j - 1).Off() then 1 else 0)
  }

  lemma {:induction false} EpochCountsRestarts(streams: seq<ConfiguredStream>, s: Engine, cs: seq<Command>, j: nat)
    requires EnabledDistinct(streams) && Fresh(s) && LegalRun(streams, s, cs) && j <= |cs|
    ensures s.epoch <= At(streams, s, cs, j).epoch <= s.epoch + Restarts(streams, s, cs, j)
  {
    hide Enabled, Commanded, EnabledDistinct, Coherent, Fresh, LegalRun;
    if j > 0 {
      EpochCountsRestarts(streams, s, cs, j - 1);
      RunSteps(streams, s, cs, j - 1);
    }
  }

  /** After initialization capture is never reported as failed. */
  lemma {:induction false} NeverFailsOnceInitialized(streams: seq<ConfiguredStream>, s: Engine, cs: seq<Command>,
                                                     i: nat, j: nat)
    requires EnabledDistinct(streams) && Fresh(s) && LegalRun(streams, s, cs) && i <= j <= |cs|
    requires At(streams, s, cs, i).initialized
    ensures At(streams, s, cs, j).initialized
    ensures At(streams, s, cs, j).infra.Idle? || At(streams, s, cs, j).infra.Active?
  {
    hide Enabled, Commanded, EnabledDistinct, Fresh, LegalRun, Demanded;
    RunCoherent(streams, s, cs, j);
    if i < j {
      NeverFailsOnceInitialized(streams, s, cs, i, j - 1);
      RunSteps(streams, s, cs, j - 1);
    }
  }
}
