/** The decisions of app.js's transport monitors, as pure functions of the states they read:
    the 5 s connection monitor, the 30 s keep-alive and the 10 s outgoing-track check. */
module Health {
  import opened Js
  import opened Protocol
  import opened Diagnostics
  import opened Notes

  /** What one monitor tick does when a peer connection exists and the session is connected. */
  datatype Verdict = Verdict(warnBroken: bool, restartIce: bool, teardown: bool)

  function MonitorVerdict(conn: ConnState, ice: IceState): (v: Verdict)
    // a healthy link is left alone
    ensures conn == ConnConnected && ice == IceConnected ==> v == Verdict(false, false, false)
    // warn exactly when either side reports `disconnected`
    ensures v.warnBroken <==> conn == ConnDisconnected || ice == IceDisconnected
    // restart ICE only when the connection itself is `disconnected`
    ensures v.restartIce <==> conn == ConnDisconnected
    // tear down exactly when either side reports `failed`
    ensures v.teardown <==> conn == ConnFailed || ice == IceFailed
  {
    if conn == ConnConnected && ice == IceConnected then Verdict(false, false, false)
    else
      var broken := conn == ConnDisconnected || ice == IceDisconnected;
      Verdict(broken, broken && conn == ConnDisconnected, conn == ConnFailed || ice == IceFailed)
  }

  /** What the monitor logs for a verdict, in order. */
  function VerdictLogs(v: Verdict): (r: seq<Logged>)
    ensures |r| <= 2
    ensures Logged(Warn, BrokenLinkDetected) in r <==> v.warnBroken
    ensures Logged(Error, LinkDownTearingDown) in r <==> v.teardown
  {
    (if v.warnBroken then [Logged(Warn, BrokenLinkDetected)] else [])
    + (if v.teardown then [Logged(Error, LinkDownTearingDown)] else [])
  }

  /** The keep-alive check of one list of transceiver tracks (`sender.track` or
      `receiver.track`, absent when null): one error per ended track, in order. */
  function EndedFindings(tracks: seq<Option<TrackState>>, note: Note): (r: seq<Logged>)
    ensures |r| <= |tracks|
    ensures forall i :: 0 <= i < |r| ==> r[i] == Logged(Error, note)
    ensures r == [] <==> forall i :: 0 <= i < |tracks| ==> tracks[i] != Some(Ended)
  {
    if tracks == [] then []
    else
      var rest := EndedFindings(tracks[..|tracks| - 1], note);
      assert forall i :: 0 <= i < |tracks| - 1 ==> tracks[..|tracks| - 1][i] == tracks[i];
      rest + (if tracks[|tracks| - 1] == Some(Ended) then [Logged(Error, note)] else [])
  }

  /** Appending a track adds a finding exactly when it has ended. */
  lemma EndedFindingsSnoc(tracks: seq<Option<TrackState>>, t: Option<TrackState>, note: Note)
    ensures EndedFindings(tracks + [t], note)
      == EndedFindings(tracks, note) + (if t == Some(Ended) then [Logged(Error, note)] else [])
  {
    assert (tracks + [t])[..|tracks|] == tracks;
  }

  /** The keep-alive tick's findings: only with both states `connected`, senders first. */
  function KeepAliveFindings(conn: ConnState, ice: IceState, senders: seq<Option<TrackState>>,
                             receivers: seq<Option<TrackState>>): (r: seq<Logged>)
    ensures !(conn == ConnConnected && ice == IceConnected) ==> r == []
    // with both states connected: one error per ended sender track, then one per ended
    // receiver track
    ensures conn == ConnConnected && ice == IceConnected ==>
      r == EndedFindings(senders, OutboundTrackEnded) + EndedFindings(receivers, InboundTrackEnded)
    ensures forall i :: 0 <= i < |r| ==> r[i].level == Error
    ensures |r| <= |senders| + |receivers|
  {
    if conn == ConnConnected && ice == IceConnected then
      EndedFindings(senders, OutboundTrackEnded) + EndedFindings(receivers, InboundTrackEnded)
    else []
  }

  /** Counted independently: there are as many findings as ended tracks. */
  lemma {:induction false} EndedFindingsCount(tracks: seq<Option<TrackState>>, note: Note)
    ensures |EndedFindings(tracks, note)| == multiset(tracks)[Some(Ended)]
  {
    if tracks != [] {
      var init := tracks[..|tracks| - 1];
      var last := tracks[|tracks| - 1];
      EndedFindingsCount(init, note);
      assert tracks == init + [last];
      EndedFindingsSnoc(init, last, note);
      assert multiset(tracks) == multiset(init) + multiset{last};
    }
  }

  /** A keep-alive tick on a connected link reports every ended sender and receiver track,
      once each, and nothing else. */
  lemma KeepAliveReportsEveryEnded(senders: seq<Option<TrackState>>, receivers: seq<Option<TrackState>>)
    ensures |KeepAliveFindings(ConnConnected, IceConnected, senders, receivers)|
      == multiset(senders)[Some(Ended)] + multiset(receivers)[Some(Ended)]
  {
    EndedFindingsCount(senders, OutboundTrackEnded);
    EndedFindingsCount(receivers, InboundTrackEnded);
  }

  /** The microphone track as the 10 s check sees it. */
  datatype TrackView = TrackView(state: TrackState, muted: bool, enabled: bool)

  /** The 10 s outgoing-track check: no track is an error, an ended one an error, a muted one
      a warning, a disabled one a warning, with that precedence; a healthy track is silent. */
  function OutgoingFinding(first: Option<TrackView>): (r: Option<Logged>)
    ensures r.None? <==> first.Some? && first.value.state.Live? && !first.value.muted && first.value.enabled
    ensures r.Some? && r.value.level == Error <==> first.None? || first.value.state.Ended?
    ensures r.Some? ==> r.value.level == Error || r.value.level == Warn
    // which record, in the check's order: missing, ended, muted, disabled
    ensures first.None? ==> r == Some(Logged(Error, MicTrackMissing))
    ensures first.Some? && first.value.state.Ended? ==> r == Some(Logged(Error, MicTrackEnded))
    ensures first.Some? && first.value.state.Live? && first.value.muted ==> r == Some(Logged(Warn, MicTrackMuted))
    ensures first.Some? && first.value.state.Live? && !first.value.muted && !first.value.enabled ==>
      r == Some(Logged(Warn, MicTrackDisabled))
  {
    match first
    case None => Some(Logged(Error, MicTrackMissing))
    case Some(t) =>
      if t.state == Ended then Some(Logged(Error, MicTrackEnded))
      else if t.muted then Some(Logged(Warn, MicTrackMuted))
      else if !t.enabled then Some(Logged(Warn, MicTrackDisabled))
      else None
  }
}
