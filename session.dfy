/** The browser client of app.js as one object: its top-level variables are one record the
    methods update, and each event handler, timer callback and user action is a method that
    updates them, appends to the diagnostics log and records the platform calls it makes in
    `effects`. */
module Session {
  import opened Js
  import opened Protocol
  import opened Diagnostics
  import opened Notes
  import opened Playback
  import opened Interruption
  import opened Dispatch
  import opened Health
  import opened SessionState

  /** One more track checked: the history grows by one stamped finding exactly when the
      track has ended. */
  lemma EndedStep(h: seq<Entry<Note>>, time: string, tracks: seq<Option<TrackState>>, i: nat, note: Note)
    requires i < |tracks|
    ensures h + Stamp(time, EndedFindings(tracks[..i + 1], note))
      == h + Stamp(time, EndedFindings(tracks[..i], note))
         + (if tracks[i] == Some(Ended) then [Entry(time, Error, note)] else [])
  {
    var found := EndedFindings(tracks[..i], note);
    assert tracks[..i + 1] == tracks[..i] + [tracks[i]];
    EndedFindingsSnoc(tracks[..i], tracks[i], note);
    if tracks[i] == Some(Ended) {
      StampExtend(h, time, found, [Logged(Error, note)]);
      assert Stamp(time, [Logged(Error, note)]) == [Entry(time, Error, note)];
    } else {
      assert found + [] == found;
    }
  }

  /** The keep-alive check of one list of tracks, one `logDiagnostic` per ended track. */
  method LogEnded(log: DiagnosticsLog<Note>, tracks: seq<Option<TrackState>>, note: Note, time: string)
    requires log.Valid()
    modifies log
    ensures log.Valid() && log.history == old(log.history) + Stamp(time, EndedFindings(tracks, note))
  {
    var i := 0;
    while i < |tracks|
      invariant 0 <= i <= |tracks|
      invariant log.Valid() && log.history == old(log.history) + Stamp(time, EndedFindings(tracks[..i], note))
    {
      EndedStep(old(log.history), time, tracks, i, note);
      if tracks[i] == Some(Ended) {
        log.Append(Entry(time, Error, note));
      }
      i := i + 1;
    }
    assert tracks[..|tracks|] == tracks;
  }

  class Client {
    /** The page's top-level variables. */
    var globals: State
    /** The platform calls made so far, in order. */
    var effects: seq<Effect>
    /** `diagnosticsLog`. */
    const log: DiagnosticsLog<Note>
    /** `audioBufferQueue` and `isPlaying`. */
    const playback: PlaybackQueue

    /** The session is ready exactly while connected, and the detector interval runs exactly
        while an analyser exists. */
    ghost predicate Valid()
      reads this, log, playback
    {
      && log.Valid() && playback.Valid()
      && globals.sessionReady == globals.isConnected
      && globals.audioAnalyser == globals.microphoneActivityCheckInterval.Some?
    }

    constructor ()
      ensures Valid() && globals == Initial && effects == []
      ensures log.history == [] && playback.queue == [] && !playback.isPlaying
      ensures playback.pushed == [] && playback.fates == []
    {
      globals := Initial;
      effects := [];
      log := new DiagnosticsLog<Note>();
      playback := new PlaybackQueue();
    }

    /** The state-setting steps of `connect` once the microphone is granted: the status
        shows "connecting", an audio context is created and the stream is kept. */
    method MediaAcquired(tracks: seq<Track>, time: string)
      requires Valid()
      modifies this, log
      ensures Valid() && effects == old(effects)
      ensures globals == old(globals).(audioContext := true, mediaStream := Some(tracks))
      ensures log.history == old(log.history) + Stamp(time, [Logged(Info, StatusShown(StatusConnecting))])
    {
      LogAll(log, time, [Logged(Info, StatusShown(StatusConnecting))]);
      globals := globals.(audioContext := true, mediaStream := Some(tracks));
    }

    /** `setupWebRTCConnection` creating the peer connection and storing its `oai-events`
        DataChannel on it. */
    method PeerCreated()
      requires Valid()
      modifies this
      ensures Valid() && effects == old(effects)
      ensures globals == old(globals).(peerConnection := Some(Peer(ConnNew, IceNew, Some(Connecting))))
    {
      globals := globals.(peerConnection := Some(Peer(ConnNew, IceNew, Some(Connecting))));
    }

    /** The platform ends microphone track `index` (its `ended` event): the track stays
        ended, and the next 10 s check reports it when it is the first one. */
    method TrackEnded(index: nat)
      requires Valid()
      modifies this
      ensures Valid() && effects == old(effects)
      ensures old(globals).mediaStream.None? || index >= |old(globals).mediaStream.value| ==> globals == old(globals)
      ensures old(globals).mediaStream.Some? && index < |old(globals).mediaStream.value| ==>
        var tracks := old(globals).mediaStream.value;
        globals == old(globals).(mediaStream := Some(tracks[index := tracks[index].(readyState := Ended)]))
      ensures old(globals).mediaStream.Some? && index == 0 < |old(globals).mediaStream.value| ==>
        OutgoingFinding(FirstTrack()) == Some(Logged(Error, MicTrackEnded))
    {
      if globals.mediaStream.Some? && index < |globals.mediaStream.value| {
        var tracks := globals.mediaStream.value;
        globals := globals.(mediaStream := Some(tracks[index := tracks[index].(readyState := Ended)]));
      }
    }

    /** The platform mutes or unmutes microphone track `index` (its `mute` and `unmute`
        events); a muted live first track is reported by the next 10 s check. */
    method TrackMuteChanged(index: nat, muted: bool)
      requires Valid()
      modifies this
      ensures Valid() && effects == old(effects)
      ensures old(globals).mediaStream.None? || index >= |old(globals).mediaStream.value| ==> globals == old(globals)
      ensures old(globals).mediaStream.Some? && index < |old(globals).mediaStream.value| ==>
        var tracks := old(globals).mediaStream.value;
        globals == old(globals).(mediaStream := Some(tracks[index := tracks[index].(muted := muted)]))
      ensures
        && old(globals).mediaStream.Some? && index == 0 < |old(globals).mediaStream.value|
        && old(globals).mediaStream.value[0].readyState == Live && muted
        ==> OutgoingFinding(FirstTrack()) == Some(Logged(Warn, MicTrackMuted))
    {
      if globals.mediaStream.Some? && index < |globals.mediaStream.value| {
        var tracks := globals.mediaStream.value;
        globals := globals.(mediaStream := Some(tracks[index := tracks[index].(muted := muted)]));
      }
    }

    /** The platform moves the DataChannel stored on the peer connection to `state` (the
        page has no listener for it); once it is not open no prompt is sent over it. */
    method ChannelStateChanged(state: ReadyState)
      requires Valid()
      modifies this
      ensures Valid() && effects == old(effects)
      ensures ChannelOf(old(globals).peerConnection).None? ==> globals == old(globals)
      ensures ChannelOf(old(globals).peerConnection).Some? ==>
        globals == old(globals).(peerConnection := Some(old(globals).peerConnection.value.(dataChannel := Some(state))))
      ensures state != Open ==> ChannelOf(globals.peerConnection) != Some(Open)
    {
      if globals.peerConnection.Some? && globals.peerConnection.value.dataChannel.Some? {
        globals := globals.(peerConnection := Some(globals.peerConnection.value.(dataChannel := Some(state))));
      }
    }

    /** `setupMicrophoneActivityDetection`: an audio context is created if missing; without a
        microphone stream building the source throws and the error is swallowed; otherwise an
        analyser is attached and the 100 ms detector interval starts with a zero counter. */
    method SetupMicrophoneActivityDetection(id: TimerId)
      requires Valid()
      modifies this
      ensures Valid()
      ensures old(globals).mediaStream.None? ==>
        globals == old(globals).(audioContext := true) && effects == old(effects)
      ensures old(globals).mediaStream.Some? ==>
        && globals == old(globals).(audioContext := true, audioAnalyser := true, silenceCount := 0,
                                    microphoneActivityCheckInterval := Some(id))
        && effects == old(effects) + [Repeat(id, DetectorTask, DetectorPeriodMs)]
    {
      if !globals.audioContext {
        globals := globals.(audioContext := true);
      }
      if globals.mediaStream.None? {
        return;
      }
      globals := globals.(audioAnalyser := true, silenceCount := 0, microphoneActivityCheckInterval := Some(id));
      effects := effects + [Repeat(id, DetectorTask, DetectorPeriodMs)];
    }

    /** `disconnect`: the flags are cleared, each set timer is cleared and nulled, the peer
        connection is closed and nulled, the microphone tracks are stopped, the audio context
        is closed, and the queues and transcript are emptied. */
    method Disconnect(time: string)
      requires Valid()
      modifies this, log, playback
      ensures Valid()
      ensures globals == Disconnected(old(globals))
      ensures effects == old(effects) + TeardownCalls(old(globals))
      ensures log.history == old(log.history) + Stamp(time, [Logged(Info, StatusShown(StatusDisconnected))])
      ensures playback.queue == [] && playback.isPlaying == old(playback.isPlaying)
      ensures playback.pushed == old(playback.pushed) && playback.current == old(playback.current)
    {
      ghost var g0, e0 := globals, effects;
      StopTimers();
      ghost var g1 := globals;
      assert g1.peerConnection == g0.peerConnection && g1.mediaStream == g0.mediaStream
        && g1.audioContext == g0.audioContext;
      assert MediaCalls(g1) == MediaCalls(g0);
      ReleaseMedia();
      AppendAssoc(e0, TimerCalls(g0), MediaCalls(g0));
      assert effects == e0 + TeardownCalls(g0);
      LogAll(log, time, [Logged(Info, StatusShown(StatusDisconnected))]);
      playback.Clear();
      globals := globals.(audioQueue := [], currentTranscript := "");
    }

    /** The first half of `disconnect`: the flags are cleared, each timer that is set is
        cleared, every timer handle is nulled, in order, and the analyser is dropped. */
    method StopTimers()
      requires Valid()
      modifies this
      ensures Valid()
      ensures globals == old(globals).(isConnected := false, sessionReady := false, initTimeout := None,
                                       connectionMonitorInterval := None, keepAliveInterval := None,
                                       microphoneActivityCheckInterval := None, audioAnalyser := false,
                                       isAIResponding := false, lastUserSpeechTime := 0)
      ensures effects == old(effects) + TimerCalls(old(globals))
    {
      ghost var e0 := effects;
      var g := globals.(isConnected := false, sessionReady := false);
      effects := effects + ClearIfSet(g.initTimeout);
      g := g.(initTimeout := None);
      effects := effects + ClearIfSet(g.connectionMonitorInterval);
      g := g.(connectionMonitorInterval := None);
      effects := effects + ClearIfSet(g.keepAliveInterval);
      g := g.(keepAliveInterval := None);
      effects := effects + ClearIfSet(g.microphoneActivityCheckInterval);
      g := g.(microphoneActivityCheckInterval := None);
      globals := g.(audioAnalyser := false, isAIResponding := false, lastUserSpeechTime := 0);
      ghost var a, b, c, d := ClearIfSet(old(globals).initTimeout), ClearIfSet(old(globals).connectionMonitorInterval),
        ClearIfSet(old(globals).keepAliveInterval), ClearIfSet(old(globals).microphoneActivityCheckInterval);
      AppendAssoc(e0, a, b);
      AppendAssoc(e0, a + b, c);
      AppendAssoc(e0, a + b + c, d);
    }

    /** The second half of `disconnect`: the peer connection is closed and nulled, every
        microphone track is stopped and the stream nulled, and the audio context is closed.
        (Its DataChannel branch tests `peerConnection` after it has been nulled, so it is
        never taken and is not modelled.) */
    method ReleaseMedia()
      requires Valid()
      modifies this
      ensures Valid()
      ensures globals == old(globals).(peerConnection := None, mediaStream := None, audioContext := false)
      ensures effects == old(effects) + MediaCalls(old(globals))
    {
      var g := globals;
      var closed := if g.peerConnection.Some? then [ClosePeer] else [];
      var stopped := if g.mediaStream.Some? then StopCalls(|g.mediaStream.value|) else [];
      var released := if g.audioContext then [CloseAudioContext] else [];
      AppendAssoc(effects, closed, stopped);
      AppendAssoc(effects, closed + stopped, released);
      effects := effects + closed + stopped + released;
      globals := g.(peerConnection := None, mediaStream := None, audioContext := false);
    }

    /** `onconnectionstatechange`, after the platform has moved the peer connection to
        `state`. With no peer connection the handler's read of its state throws. */
    method OnConnectionStateChange(state: ConnState, time: string)
      requires Valid()
      modifies this, log, playback
      ensures Valid()
      ensures playback.pushed == old(playback.pushed) && playback.current == old(playback.current)
      ensures old(globals).peerConnection.None? ==>
        globals == old(globals) && effects == old(effects) && log.history == old(log.history)
      ensures old(globals).peerConnection.Some? ==>
        && globals == AfterConnState(old(globals), state)
        && effects == old(effects) + ConnEffects(old(globals), state)
        && log.history == old(log.history) + Stamp(time, ConnLogs(state, old(globals).isConnected))
    {
      if globals.peerConnection.None? {
        return;
      }
      var wasConnected := globals.isConnected;
      var g1 := globals.(peerConnection := Some(globals.peerConnection.value.(connectionState := state)));
      var own := StateChangeLogs(state);
      LogAll(log, time, own);
      if state == ConnConnected {
        globals := g1.(isConnected := true, sessionReady := true);
      } else {
        globals := g1;
        if state == ConnDisconnected {
          effects := effects + [Schedule(RecoveryCheckTask, RecoveryDelayMs)];
        } else if state == ConnFailed {
          effects := effects + [Alert(ConnectionDropped)];
        }
      }
      if ConnTearsDown(state, wasConnected) {
        Disconnect(time);
        StampExtend(old(log.history), time, own, [Logged(Info, StatusShown(StatusDisconnected))]);
        if state == ConnFailed {
          AppendAssoc(old(effects), [Alert(ConnectionDropped)], TeardownCalls(g1));
        }
      } else {
        assert own + [] == own;
      }
    }

    /** The 5 s recovery timer set on `disconnected`: tear down if the connection still
        exists and is still `disconnected`. */
    method RecoveryCheck(time: string)
      requires Valid()
      modifies this, log, playback
      ensures Valid()
      ensures playback.pushed == old(playback.pushed) && playback.current == old(playback.current)
      ensures
        var fire := old(globals).peerConnection.Some? && old(globals).peerConnection.value.connectionState == ConnDisconnected;
        && (fire ==>
              && globals == Disconnected(old(globals)) && effects == old(effects) + TeardownCalls(old(globals))
              && log.history == old(log.history) + Stamp(time,
                   [Logged(Error, RecoveryFailed), Logged(Info, StatusShown(StatusDisconnected))]))
        && (!fire ==> globals == old(globals) && effects == old(effects) && log.history == old(log.history))
    {
      if globals.peerConnection.Some? && globals.peerConnection.value.connectionState == ConnDisconnected {
        LogAll(log, time, [Logged(Error, RecoveryFailed)]);
        Disconnect(time);
        StampExtend(old(log.history), time, [Logged(Error, RecoveryFailed)], [Logged(Info, StatusShown(StatusDisconnected))]);
      }
    }

    /** `oniceconnectionstatechange`, after the platform has moved ICE to `ice`: ICE is
        restarted on `failed` only, never on `disconnected`. */
    method OnIceStateChange(ice: IceState, time: string)
      requires Valid()
      modifies this, log
      ensures Valid()
      ensures old(globals).peerConnection.None? ==>
        globals == old(globals) && effects == old(effects) && log.history == old(log.history)
      ensures old(globals).peerConnection.Some? ==>
        && globals == old(globals).(peerConnection := Some(old(globals).peerConnection.value.(iceState := ice)))
        && effects == old(effects) + (if ice == IceFailed then [RestartIce] else [])
        && log.history == old(log.history) + Stamp(time, IceLogs(ice))
    {
      if globals.peerConnection.None? {
        return;
      }
      globals := globals.(peerConnection := Some(globals.peerConnection.value.(iceState := ice)));
      LogAll(log, time, IceLogs(ice));
      if ice == IceFailed {
        effects := effects + [RestartIce];
      }
    }

    /** The DataChannel `open` listener: the opening prompt becomes the current prompt and one
        full `session.update` (prompt, Opus both ways, audio only, server VAD) is sent. */
    method OnDataChannelOpen(textarea: string, time: string)
      requires Valid() && globals.peerConnection.Some?
      modifies this, log
      ensures Valid()
      ensures
        var p := OpeningPrompt(textarea, old(globals).currentSystemPrompt);
        var update := SessionUpdate(p, Some(OpusAudio));
        && globals == old(globals).(peerConnection := Some(old(globals).peerConnection.value.(dataChannel := Some(Open))),
                                    currentSystemPrompt := p)
        && effects == old(effects) + [ChannelSend(update)]
        && log.history == old(log.history) + Stamp(time,
             [Logged(Success, ChannelOpened), Logged(Info, PromptPreview(Preview(p))),
              Logged(Debug, SendingJson(update)), Logged(Success, SessionUpdateSent)])
    {
      var p := OpeningPrompt(textarea, globals.currentSystemPrompt);
      globals := globals.(peerConnection := Some(globals.peerConnection.value.(dataChannel := Some(Open))),
                          currentSystemPrompt := p);
      var update := SessionUpdate(p, Some(OpusAudio));
      effects := effects + [ChannelSend(update)];
      LogAll(log, time, [Logged(Success, ChannelOpened), Logged(Info, PromptPreview(Preview(p))),
                         Logged(Debug, SendingJson(update)), Logged(Success, SessionUpdateSent)]);
    }

    /** `startConnectionMonitoring`: replace the 5 s monitor interval, then `startKeepAlive`. */
    method StartConnectionMonitoring(monitorId: TimerId, keepAliveId: TimerId)
      requires Valid()
      modifies this
      ensures Valid()
      ensures globals == old(globals).(connectionMonitorInterval := Some(monitorId), keepAliveInterval := Some(keepAliveId))
      ensures effects == old(effects) + ClearIfSet(old(globals).connectionMonitorInterval)
        + [Repeat(monitorId, MonitorTask, MonitorPeriodMs)]
        + ClearIfSet(old(globals).keepAliveInterval) + [Repeat(keepAliveId, KeepAliveTask, KeepAlivePeriodMs)]
    {
      if globals.connectionMonitorInterval.Some? {
        effects := effects + [ClearTimer(globals.connectionMonitorInterval.value)];
      }
      globals := globals.(connectionMonitorInterval := Some(monitorId));
      effects := effects + [Repeat(monitorId, MonitorTask, MonitorPeriodMs)];
      StartKeepAlive(keepAliveId);
    }

    /** `startKeepAlive`: replace the 30 s keep-alive interval. */
    method StartKeepAlive(id: TimerId)
      requires Valid()
      modifies this
      ensures Valid()
      ensures globals == old(globals).(keepAliveInterval := Some(id))
      ensures effects == old(effects) + ClearIfSet(old(globals).keepAliveInterval) + [Repeat(id, KeepAliveTask, KeepAlivePeriodMs)]
    {
      if globals.keepAliveInterval.Some? {
        effects := effects + [ClearTimer(globals.keepAliveInterval.value)];
      }
      globals := globals.(keepAliveInterval := Some(id));
      effects := effects + [Repeat(id, KeepAliveTask, KeepAlivePeriodMs)];
    }

    /** One firing of the 5 s monitor interval. Without a peer connection or a connected
        session it cancels itself; otherwise it acts on `MonitorVerdict`: warn (restarting ICE
        if the connection itself is `disconnected`), and on `failed` stop itself and tear down. */
    method MonitorTick(time: string)
      requires Valid()
      modifies this, log, playback
      ensures Valid()
      ensures playback.pushed == old(playback.pushed) && playback.current == old(playback.current)
      ensures old(globals).peerConnection.None? || !old(globals).isConnected ==>
        && globals == old(globals).(connectionMonitorInterval := None)
        && effects == old(effects) + ClearIfSet(old(globals).connectionMonitorInterval)
        && log.history == old(log.history)
      ensures old(globals).peerConnection.Some? && old(globals).isConnected ==>
        var v := MonitorVerdict(old(globals).peerConnection.value.connectionState, old(globals).peerConnection.value.iceState);
        var stopped := old(globals).(connectionMonitorInterval := None);
        && (v.teardown ==>
              && globals == Disconnected(stopped)
              && effects == old(effects) + (if v.restartIce then [RestartIce] else [])
                 + ClearIfSet(old(globals).connectionMonitorInterval) + TeardownCalls(stopped)
              && log.history == old(log.history)
                 + Stamp(time, VerdictLogs(v) + [Logged(Info, StatusShown(StatusDisconnected))]))
        && (!v.teardown ==>
              && globals == old(globals) && effects == old(effects) + (if v.restartIce then [RestartIce] else [])
              && log.history == old(log.history) + Stamp(time, VerdictLogs(v)))
    {
      if globals.peerConnection.None? || !globals.isConnected {
        StopMonitor();
        return;
      }
      var state := globals.peerConnection.value.connectionState;
      var iceState := globals.peerConnection.value.iceState;
      if state == ConnConnected && iceState == IceConnected {
        assert VerdictLogs(MonitorVerdict(state, iceState)) == [];
        return;
      }
      var broken := state == ConnDisconnected || iceState == IceDisconnected;
      var failed := state == ConnFailed || iceState == IceFailed;
      var logs := (if broken then [Logged(Warn, BrokenLinkDetected)] else [])
        + (if failed then [Logged(Error, LinkDownTearingDown)] else []);
      LogAll(log, time, logs);
      var restart := if broken && state == ConnDisconnected then [RestartIce] else [];
      effects := effects + restart;
      if failed {
        StopMonitor();
        Disconnect(time);
        StampExtend(old(log.history), time, logs, [Logged(Info, StatusShown(StatusDisconnected))]);
      }
    }

    /** `clearInterval(connectionMonitorInterval)` when it is set, and null the handle. */
    method StopMonitor()
      requires Valid()
      modifies this
      ensures Valid()
      ensures globals == old(globals).(connectionMonitorInterval := None)
      ensures effects == old(effects) + ClearIfSet(old(globals).connectionMonitorInterval)
    {
      if globals.connectionMonitorInterval.Some? {
        effects := effects + [ClearTimer(globals.connectionMonitorInterval.value)];
        globals := globals.(connectionMonitorInterval := None);
      }
    }

    /** One firing of the 30 s keep-alive interval: it cancels itself like the monitor, and
        with both states `connected` logs one error per ended sender or receiver track. It
        never tears down. */
    method KeepAliveTick(senders: seq<Option<TrackState>>, receivers: seq<Option<TrackState>>, time: string)
      requires Valid()
      modifies this, log
      ensures Valid()
      ensures old(globals).peerConnection.None? || !old(globals).isConnected ==>
        && globals == old(globals).(keepAliveInterval := None)
        && effects == old(effects) + ClearIfSet(old(globals).keepAliveInterval)
        && log.history == old(log.history)
      ensures old(globals).peerConnection.Some? && old(globals).isConnected ==>
        && globals == old(globals) && effects == old(effects)
        && log.history == old(log.history) + Stamp(time, KeepAliveFindings(
             old(globals).peerConnection.value.connectionState, old(globals).peerConnection.value.iceState,
             senders, receivers))
    {
      if globals.peerConnection.None? || !globals.isConnected {
        StopKeepAlive();
        return;
      }
      var state := globals.peerConnection.value.connectionState;
      var iceState := globals.peerConnection.value.iceState;
      if state == ConnConnected && iceState == IceConnected {
        LogEnded(log, senders, OutboundTrackEnded, time);
        LogEnded(log, receivers, InboundTrackEnded, time);
        StampExtend(old(log.history), time, EndedFindings(senders, OutboundTrackEnded),
                    EndedFindings(receivers, InboundTrackEnded));
      }
    }

    /** `clearInterval(keepAliveInterval)` when it is set, and null the handle. */
    method StopKeepAlive()
      requires Valid()
      modifies this
      ensures Valid()
      ensures globals == old(globals).(keepAliveInterval := None)
      ensures effects == old(effects) + ClearIfSet(old(globals).keepAliveInterval)
    {
      if globals.keepAliveInterval.Some? {
        effects := effects + [ClearTimer(globals.keepAliveInterval.value)];
        globals := globals.(keepAliveInterval := None);
      }
    }

    /** The first microphone track as the outgoing check reads it. */
    function FirstTrack(): (r: Option<TrackView>)
      reads this
      ensures r.Some? <==> globals.mediaStream.Some? && |globals.mediaStream.value| > 0
      ensures r.Some? ==> r.value.state == globals.mediaStream.value[0].readyState
    {
      if globals.mediaStream.Some? && |globals.mediaStream.value| > 0 then
        var t := globals.mediaStream.value[0];
        Some(TrackView(t.readyState, t.muted, t.enabled))
      else None
    }

    /** `startOutgoingAudioMonitoring`: only for a connected session with a stream; with no
        track it logs an error; otherwise it logs the track and starts the 10 s check, whose
        handle is never kept (so `disconnect` cannot clear it). */
    method StartOutgoingAudioMonitoring(id: TimerId, time: string)
      requires Valid()
      modifies this, log
      ensures Valid() && globals == old(globals)
      ensures old(globals).mediaStream.None? || !old(globals).isConnected ==>
        effects == old(effects) && log.history == old(log.history)
      ensures old(globals).mediaStream.Some? && old(globals).isConnected && |old(globals).mediaStream.value| == 0 ==>
        effects == old(effects) && log.history == old(log.history) + Stamp(time, [Logged(Error, NoOutgoingTracks)])
      ensures old(globals).mediaStream.Some? && old(globals).isConnected && |old(globals).mediaStream.value| > 0 ==>
        && effects == old(effects) + [Repeat(id, OutgoingCheckTask, OutgoingCheckPeriodMs)]
        && log.history == old(log.history) + Stamp(time, [Logged(Info, MicTrackInfo)])
    {
      if globals.mediaStream.None? || !globals.isConnected {
        return;
      }
      if |globals.mediaStream.value| == 0 {
        LogAll(log, time, [Logged(Error, NoOutgoingTracks)]);
        return;
      }
      LogAll(log, time, [Logged(Info, MicTrackInfo)]);
      effects := effects + [Repeat(id, OutgoingCheckTask, OutgoingCheckPeriodMs)];
    }

    /** One firing of the 10 s outgoing check: for a connected session with a stream, log the
        finding about its first track, if any. */
    method OutgoingCheckTick(time: string)
      requires Valid()
      modifies log
      ensures Valid()
      ensures !(globals.isConnected && globals.mediaStream.Some?) ==> log.history == old(log.history)
      ensures globals.isConnected && globals.mediaStream.Some? ==>
        var f := OutgoingFinding(FirstTrack());
        log.history == old(log.history) + Stamp(time, if f.Some? then [f.value] else [])
    {
      if !globals.isConnected || globals.mediaStream.None? {
        return;
      }
      var f := OutgoingFinding(FirstTrack());
      if f.Some? {
        LogAll(log, time, [f.value]);
      }
    }

    /** One firing of the 100 ms detector interval with the analyser's byte frequency bins:
        loud input while the AI responds records the time, calls `cancelAIResponse` and resets
        the counter; quiet input counts up; anything else resets the counter. */
    method DetectorTick(bins: seq<nat>, now: int)
      requires Valid()
      modifies this
      ensures Valid()
      ensures
        var g := old(globals);
        var o := Tick(g.audioAnalyser && g.isConnected, Classify(BinSum(bins), |bins|), g.isAIResponding,
                      g.websocket == Some(Open), g.silenceCount);
        && globals == g.(isAIResponding := o.responding, silenceCount := o.silenceCount,
                         lastUserSpeechTime := if o.speechDetected then now else g.lastUserSpeechTime)
        && effects == old(effects) + (if o.cancelSent then [SocketSend(ResponseCancel)] else [])
    {
      if !globals.audioAnalyser || !globals.isConnected {
        return;
      }
      var sum := SumBins(bins);
      var level := Classify(sum, |bins|);
      ghost var g := globals;
      ghost var socketOpen := g.websocket == Some(Open);
      if level == Speech && globals.isAIResponding {
        globals := globals.(lastUserSpeechTime := now);
        CancelAIResponse();
        globals := globals.(silenceCount := 0);
        assert Tick(true, level, true, socketOpen, g.silenceCount)
          == TickOutcome(!socketOpen, socketOpen, true, 0);
      } else if level == Silence {
        globals := globals.(silenceCount := globals.silenceCount + 1);
      } else {
        globals := globals.(silenceCount := 0);
      }
    }

    /** `cancelAIResponse`. */
    method CancelAIResponse()
      requires Valid()
      modifies this
      ensures Valid()
      ensures
        var sent := Cancel(old(globals).websocket == Some(Open), old(globals).isAIResponding);
        && globals == old(globals).(isAIResponding := old(globals).isAIResponding && !sent)
        && effects == old(effects) + (if sent then [SocketSend(ResponseCancel)] else [])
    {
      if globals.websocket == Some(Open) && globals.isAIResponding {
        effects := effects + [SocketSend(ResponseCancel)];
        globals := globals.(isAIResponding := false);
      }
    }

    /** `handleWebSocketMessage`, applying the dispatcher's outcome. */
    method HandleWebSocketMessage(m: Inbound, time: string)
      requires Valid()
      modifies this, log
      ensures Valid()
      ensures
        var o := HandleMessage(old(globals).isAIResponding, old(globals).currentTranscript, m);
        && globals == old(globals).(isAIResponding := o.responding, currentTranscript := o.transcript)
        && effects == old(effects) + (if o.alert.Some? then [Alert(o.alert.value)] else [])
        && log.history == old(log.history) + Stamp(time, o.logs)
    {
      var o := HandleMessage(globals.isAIResponding, globals.currentTranscript, m);
      globals := globals.(isAIResponding := o.responding, currentTranscript := o.transcript);
      LogAll(log, time, o.logs);
      if o.alert.Some? {
        effects := effects + [Alert(o.alert.value)];
      }
    }

    /** `toggleMute`: flip the flag and set every microphone track's `enabled` to its negation. */
    method ToggleMute()
      requires Valid()
      modifies this
      ensures Valid() && effects == old(effects)
      ensures globals == old(globals).(isMuted := !old(globals).isMuted,
                                       mediaStream := if old(globals).mediaStream.Some?
                                                      then Some(WithEnabled(old(globals).mediaStream.value, old(globals).isMuted))
                                                      else None)
    {
      globals := globals.(isMuted := !globals.isMuted);
      if globals.mediaStream.Some? {
        globals := globals.(mediaStream := Some(WithEnabled(globals.mediaStream.value, !globals.isMuted)));
      }
    }

    /** The prompt textarea's `input` listener. */
    method OnPromptInput(value: string)
      requires Valid()
      modifies this
      ensures Valid() && effects == old(effects)
      ensures globals == old(globals).(currentSystemPrompt := value)
    {
      globals := globals.(currentSystemPrompt := value);
    }

    /** `sendSystemPrompt`: one instructions-only `session.update` over an open DataChannel
        when the chosen prompt is not blank, which then becomes the current prompt. */
    method SendSystemPrompt(textarea: string, time: string)
      requires Valid()
      modifies this, log
      ensures Valid()
      ensures
        var channel := ChannelOf(old(globals).peerConnection);
        var p := PromptToSend(channel, textarea, old(globals).currentSystemPrompt);
        && globals == (if p.Some? then old(globals).(currentSystemPrompt := p.value) else old(globals))
        && effects == old(effects) + (if p.Some? then [ChannelSend(SessionUpdate(p.value, None))] else [])
        && log.history == old(log.history) + Stamp(time, PromptLogs(channel, textarea, old(globals).currentSystemPrompt))
    {
      ghost var channel := ChannelOf(globals.peerConnection);
      ghost var current := globals.currentSystemPrompt;
      if globals.peerConnection.None? || globals.peerConnection.value.dataChannel.None? {
        LogAll(log, time, [Logged(Warn, ChannelMissing)]);
        return;
      }
      var channelState := globals.peerConnection.value.dataChannel.value;
      if channelState != Open {
        LogAll(log, time, [Logged(Warn, ChannelNotReady(channelState))]);
        return;
      }
      var p := ChosenPrompt(textarea, globals.currentSystemPrompt);
      assert PromptToSend(channel, textarea, current) == if IsBlank(p) then None else Some(p);
      if IsBlank(p) {
        LogAll(log, time, [Logged(Warn, PromptBlank)]);
        return;
      }
      globals := globals.(currentSystemPrompt := p);
      var message := SessionUpdate(p, None);
      effects := effects + [ChannelSend(message)];
      LogAll(log, time, [Logged(Info, PromptPreview(Preview(p))), Logged(Debug, SendingJson(message)),
                         Logged(Success, PromptSent)]);
    }

    /** `setupWebSocketForControl`: keep the parameters, reset the attempt counter and open a
        new control socket (a previous one is neither closed nor forgotten by the platform). */
    method SetupWebSocketForControl(apiKey: string, model: string, voice: string, time: string)
      requires Valid()
      modifies this, log
      ensures Valid() && effects == old(effects)
      ensures globals == old(globals).(websocketApiKey := Some(apiKey), websocketModel := Some(model),
                                       websocketVoice := Some(voice), websocketReconnectAttempts := 0,
                                       websocket := Some(Connecting))
      ensures log.history == old(log.history) + Stamp(time, [Logged(Info, SocketSetup)])
    {
      globals := globals.(websocketApiKey := Some(apiKey), websocketModel := Some(model),
                          websocketVoice := Some(voice), websocketReconnectAttempts := 0);
      LogAll(log, time, [Logged(Info, SocketSetup)]);
      globals := globals.(websocket := Some(Connecting));
    }

    /** The control socket's `onopen`: reset the counter and send the `connect` request. */
    method OnControlSocketOpen(time: string)
      requires Valid()
      requires globals.websocketApiKey.Some? && globals.websocketModel.Some? && globals.websocketVoice.Some?
      modifies this, log
      ensures Valid()
      ensures globals == old(globals).(websocket := Some(Open), websocketReconnectAttempts := 0)
      ensures effects == old(effects) + [SocketSend(ConnectRequest(old(globals).websocketApiKey.value,
                                           old(globals).websocketModel.value, old(globals).websocketVoice.value))]
      ensures log.history == old(log.history) + Stamp(time, [Logged(Success, SocketOpened)])
    {
      globals := globals.(websocket := Some(Open), websocketReconnectAttempts := 0);
      LogAll(log, time, [Logged(Success, SocketOpened)]);
      effects := effects + [SocketSend(ConnectRequest(globals.websocketApiKey.value, globals.websocketModel.value,
                                                      globals.websocketVoice.value))];
    }

    /** The control socket's `onmessage`: `connected` sends the system prompt at once,
        `session.created` schedules it 500 ms later, `disconnected` and `error` are only
        logged; nothing here reconnects or tears down. */
    method OnControlSocketMessage(frame: ControlFrame, textarea: string, time: string)
      requires Valid()
      modifies this, log
      ensures Valid()
      ensures
        var act := ActedOn(frame);
        var channel := ChannelOf(old(globals).peerConnection);
        var p := PromptToSend(channel, textarea, old(globals).currentSystemPrompt);
        if act == Some(RelayUp) then
          && globals == (if p.Some? then old(globals).(currentSystemPrompt := p.value) else old(globals))
          && effects == old(effects) + (if p.Some? then [ChannelSend(SessionUpdate(p.value, None))] else [])
          && log.history == old(log.history) + Stamp(time,
               FrameLogs(frame) + [Logged(Success, RelayConnected)]
               + PromptLogs(channel, textarea, old(globals).currentSystemPrompt))
        else
          && globals == old(globals)
          && effects == old(effects)
             + (if act == Some(SessionCreatedReply) then [Schedule(PromptResendTask, PromptResendDelayMs)] else [])
          && log.history == old(log.history) + Stamp(time, FrameLogs(frame) + ReplyLogs(act))
    {
      var act := ActedOn(frame);
      if act == Some(RelayUp) {
        ghost var g := globals;
        var logs := FrameLogs(frame) + [Logged(Success, RelayConnected)];
        LogAll(log, time, logs);
        SendSystemPrompt(textarea, time);
        StampExtend(old(log.history), time, logs, PromptLogs(ChannelOf(g.peerConnection), textarea, g.currentSystemPrompt));
      } else {
        LogAll(log, time, FrameLogs(frame) + ReplyLogs(act));
        if act == Some(SessionCreatedReply) {
          effects := effects + [Schedule(PromptResendTask, PromptResendDelayMs)];
        }
      }
    }

    /** The control socket's `onerror`. */
    method OnControlSocketError(time: string)
      requires Valid()
      modifies log
      ensures Valid()
      ensures log.history == old(log.history) + Stamp(time, [Logged(Error, SocketError)])
    {
      LogAll(log, time, [Logged(Error, SocketError)]);
    }

    /** The control socket's `onclose`: a normal closure (1000) is only noted; any other code
        is warned about and, while connected, `reconnectWebSocket` runs, which only logs. */
    method OnControlSocketClose(code: int, reason: string, time: string)
      requires Valid()
      modifies this, log
      ensures Valid() && effects == old(effects)
      ensures globals == old(globals).(websocket := Some(Closed))
      ensures code == NormalClosure ==>
        log.history == old(log.history) + Stamp(time, [Logged(Info, SocketClosedNormally)])
      ensures code != NormalClosure ==>
        log.history == old(log.history) + Stamp(time,
          [Logged(Warn, SocketClosed(code, OrElse(Some(reason), NoReason)))]
          + (if old(globals).isConnected then [Logged(Info, SocketNotCritical)] else []))
    {
      globals := globals.(websocket := Some(Closed));
      if code == NormalClosure {
        LogAll(log, time, [Logged(Info, SocketClosedNormally)]);
        return;
      }
      LogAll(log, time, [Logged(Warn, SocketClosed(code, OrElse(Some(reason), NoReason)))]
                        + (if globals.isConnected then [Logged(Info, SocketNotCritical)] else []));
    }
  }
}
