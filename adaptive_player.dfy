/**
 * The player's control loop (client/js/adaptive-player.js): the reaction to server
 * recommendations and the periodic decide-switch-report tick.
 */
module Playback {
  import opened Wrappers
  import opened Protocol
  import opened QualityControl
  import BufferMonitoring

  /** The tier one step above (`increase`) or below (`decrease`) the current one, if there is one. */
  function RecommendedTarget(current: Tier, action: string): (r: Option<Tier>)
    ensures r.Some? <==> (action == "increase" && current != High) || (action == "decrease" && current != UltraLow)
    ensures r.Some? && action == "increase" ==> Index(r.value) == Index(current) + 1
    ensures r.Some? && action == "decrease" ==> Index(r.value) + 1 == Index(current)
  {
    var i := Index(current);
    if action == "increase" && i < |QualityOrder| - 1 then Some(QualityOrder[i + 1])
    else if action == "decrease" && i > 0 then Some(QualityOrder[i - 1])
    else None
  }

  /** The controller's state and media source are those a switch attempt `r` leaves behind. */
  predicate Applied(r: SwitchResult, state: SwitchState, source: string, oldSource: string)
  {
    state == r.state && source == (if r.loadedUrl.Some? then r.loadedUrl.value else oldSource)
  }

  class AdaptivePlayer {
    const qualityManager: QualityManager
    const bufferManager: BufferMonitoring.BufferManager
    const clientId: string
    // `stats`
    var totalSwitches: nat
    var totalBufferEvents: nat

    ghost predicate Valid()
      reads this, bufferManager
    {
      bufferManager.Valid()
    }

    /** The constructor together with `initialize`'s creation of the two managers. */
    constructor (clientId: string, videoSource: string)
      ensures Valid() && fresh(qualityManager) && fresh(bufferManager)
      ensures this.clientId == clientId && totalSwitches == 0 && totalBufferEvents == 0
      ensures qualityManager.State() == SwitchState(Medium, 0, 0) && qualityManager.isAutoMode
      ensures qualityManager.availableQualities == map[] && qualityManager.videoSource == videoSource
      ensures bufferManager.bufferHistory == [] && !bufferManager.isMonitoring
    {
      this.clientId := clientId;
      qualityManager := new QualityManager(videoSource);
      bufferManager := new BufferMonitoring.BufferManager();
      totalSwitches := 0;
      totalBufferEvents := 0;
    }

    /** `onQualityChanged`: the handler of the `qualityChanged` event counts the switch. */
    method OnQualityChanged(event: QualityChanged)
      modifies this
      ensures totalSwitches == old(totalSwitches) + 1 && totalBufferEvents == old(totalBufferEvents)
    {
      totalSwitches := totalSwitches + 1;
    }

    /** `onVideoWaiting`: the handler of the element's `waiting` event counts a buffering event. */
    method OnVideoWaiting()
      modifies this
      ensures totalBufferEvents == old(totalBufferEvents) + 1 && totalSwitches == old(totalSwitches)
    {
      totalBufferEvents := totalBufferEvents + 1;
    }

    /**
     * `handleWebSocketMessage(data)`: a recommendation, in auto mode, becomes a switch attempt
     * one tier up or down with reason `server-<reason>`; nothing else has any effect.
     */
    method HandleWebSocketMessage(data: ServerMessage, now: int, media: MediaOutcome) returns (dispatched: Option<QualityChanged>)
      modifies this, qualityManager
      ensures var target := if data.QualityRecommendation? && old(qualityManager.isAutoMode)
                            then RecommendedTarget(old(qualityManager.currentQuality), data.action) else None;
        && (target.None? ==> unchanged(qualityManager) && dispatched == None && totalSwitches == old(totalSwitches))
        && (target.Some? ==>
              var r := SwitchAttempt(old(qualityManager.State()), old(qualityManager.availableQualities), target.value, now, media);
              && Applied(r, qualityManager.State(), qualityManager.videoSource, old(qualityManager.videoSource))
              && totalSwitches == old(totalSwitches) + (if r.ok then 1 else 0)
              && dispatched == if r.ok then Some(QualityChanged(target.value, "server-" + data.reason,
                                                             old(qualityManager.availableQualities)[target.value].bitrate))
                               else None)
      ensures qualityManager.availableQualities == old(qualityManager.availableQualities)
      ensures qualityManager.isAutoMode == old(qualityManager.isAutoMode)
      ensures totalBufferEvents == old(totalBufferEvents)
    {
      dispatched := None;
      match data
      case QualityRecommendation(action, reason) =>
        if qualityManager.isAutoMode {
          var currentIndex := Index(qualityManager.currentQuality);
          var targetQuality: Option<Tier> := None;
          if action == "increase" && currentIndex < |QualityOrder| - 1 {
            targetQuality := Some(QualityOrder[currentIndex + 1]);
          } else if action == "decrease" && currentIndex > 0 {
            targetQuality := Some(QualityOrder[currentIndex - 1]);
          }
          if targetQuality.Some? {
            var ok;
            ok, dispatched := qualityManager.SwitchQuality(targetQuality.value, "server-" + reason, now, media);
            if dispatched.Some? {
              OnQualityChanged(dispatched.value);
            }
          }
        }
      case OtherServerMessage(_) =>
    }

    /**
     * `performAdaptiveLogic()`, one 3 s tick: in auto mode, decide from the measured bandwidth
     * and the buffer health, attempt a switch only when the decision differs from the current
     * tier, then (socket open) report bandwidth and buffer health, in that order. `measured` is
     * what `measureBandwidth()` resolved to; `None` is a rejection, which the catch swallows.
     */
    method PerformAdaptiveLogic(measured: Option<nat>, video: Option<BufferMonitoring.VideoState>, socketOpen: bool, now: int, media: MediaOutcome)
      returns (sent: seq<ClientMessage>, dispatched: Option<QualityChanged>)
      requires Valid()
      modifies this, qualityManager
      ensures Valid()
      ensures !old(qualityManager.isAutoMode) || measured.None? ==>
        sent == [] && dispatched == None && unchanged(qualityManager) && totalSwitches == old(totalSwitches)
      ensures old(qualityManager.isAutoMode) && measured.Some? ==>
        var bandwidth := measured.value;
        var h := BufferMonitoring.BufferHealth(video);
        var decision := OptimalQuality(true, old(qualityManager.currentQuality), bandwidth, h);
        && (decision == old(qualityManager.currentQuality) ==>
              unchanged(qualityManager) && dispatched == None && totalSwitches == old(totalSwitches))
        && (decision != old(qualityManager.currentQuality) ==>
              var r := SwitchAttempt(old(qualityManager.State()), old(qualityManager.availableQualities), decision, now, media);
              && Applied(r, qualityManager.State(), qualityManager.videoSource, old(qualityManager.videoSource))
              && totalSwitches == old(totalSwitches) + (if r.ok then 1 else 0)
              && dispatched == if r.ok then Some(QualityChanged(decision, "adaptive",
                                                             old(qualityManager.availableQualities)[decision].bitrate))
                               else None)
        && sent == if socketOpen then [BandwidthReport(bandwidth, clientId), BufferHealthReport(h, clientId)] else []
      ensures qualityManager.availableQualities == old(qualityManager.availableQualities)
      ensures qualityManager.isAutoMode == old(qualityManager.isAutoMode)
      ensures totalBufferEvents == old(totalBufferEvents)
    {
      sent, dispatched := [], None;
      if !qualityManager.isAutoMode {
        return;
      }
      if measured.None? {
        return;
      }
      var bandwidth := measured.value;
      var bufferHealth := BufferMonitoring.BufferManager.GetBufferHealth(video);
      var optimalQuality := qualityManager.DetermineOptimalQuality(bandwidth, bufferHealth);
      if optimalQuality != qualityManager.currentQuality {
        var ok;
        ok, dispatched := qualityManager.SwitchQuality(optimalQuality, "adaptive", now, media);
        if dispatched.Some? {
          OnQualityChanged(dispatched.value);
        }
      }
      if socketOpen {
        sent := [BandwidthReport(bandwidth, clientId), BufferHealthReport(bufferHealth, clientId)];
      }
    }
  }
}
