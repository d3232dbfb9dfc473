/**
 * The quality ladder and the quality controller of the player
 * (client/js/quality-manager.js): the ABR decision rule and the guarded switch.
 */
module QualityControl {
  import opened Wrappers

  /** The four quality tiers, lowest first. */
  datatype Tier = UltraLow | Low | Medium | High

  /** `qualityOrder`: the fixed ascending ladder. */
  const QualityOrder: seq<Tier> := [UltraLow, Low, Medium, High]

  /** Minimum interval between two committed switches, in milliseconds. */
  const MinSwitchInterval: int := 5000

  /** `qualityOrder.indexOf(t)`: the position of a tier on the ladder. */
  function Index(t: Tier): (i: nat)
    ensures i < |QualityOrder| && QualityOrder[i] == t
  {
    match t
    case UltraLow => 0
    case Low => 1
    case Medium => 2
    case High => 3
  }

  /** The name a tier has on the wire and in the manifest. */
  function Name(t: Tier): string
  {
    match t
    case UltraLow => "ultra-low"
    case Low => "low"
    case Medium => "medium"
    case High => "high"
  }

  /** `qualityRules[t].minBandwidth`, in bits per second. */
  function MinBandwidth(t: Tier): nat
  {
    match t
    case UltraLow => 0
    case Low => 400000
    case Medium => 800000
    case High => 1500000
  }

  /** `qualityRules[t].maxBandwidth`; `None` is the top tier's `Infinity`. */
  function MaxBandwidth(t: Tier): Option<nat>
  {
    match t
    case UltraLow => Some(500000)
    case Low => Some(1000000)
    case Medium => Some(2000000)
    case High => None
  }

  /** `bandwidth >= minBandwidth * 1.2`: a 20% headroom above the tier's minimum. */
  predicate HasHeadroom(bandwidth: nat, t: Tier)
  {
    5 * bandwidth >= 6 * MinBandwidth(t)
  }

  /** `bandwidth >= minBandwidth * 0.8`: the tier is sustained within a 20% margin. */
  predicate Sustains(bandwidth: nat, t: Tier)
  {
    5 * bandwidth >= 4 * MinBandwidth(t)
  }

  /** `bandwidth > maxBandwidth`, never true against `Infinity`. */
  predicate ExceedsMax(bandwidth: nat, t: Tier)
  {
    MaxBandwidth(t).Some? && bandwidth > MaxBandwidth(t).value
  }

  // ---------------------------------------------------------------------------
  // The decision rule, as functions
  // ---------------------------------------------------------------------------

  /** The buffer step: one tier down at a critical buffer, one tier up (with headroom) at an excellent one. */
  function BufferStep(current: Tier, bandwidth: nat, bufferHealth: real): Tier
  {
    var i := Index(current);
    if bufferHealth <= 3.0 then
      QualityOrder[if i == 0 then 0 else i - 1]
    else if bufferHealth >= 15.0 then
      var potential := QualityOrder[if i == |QualityOrder| - 1 then i else i + 1];
      if HasHeadroom(bandwidth, potential) then potential else current
    else
      current
  }

  /** The downward loop from index `i`: the first tier it meets that the bandwidth sustains, else `target`. */
  function WalkDown(i: int, bandwidth: nat, target: Tier): Tier
    requires i < |QualityOrder|
    decreases i + 1
  {
    if i < 0 then target
    else if Sustains(bandwidth, QualityOrder[i]) then QualityOrder[i]
    else WalkDown(i - 1, bandwidth, target)
  }

  /** The upward loop from index `i`: climbs while each tier has headroom, stopping at the first that has not. */
  function WalkUp(i: nat, bandwidth: nat, target: Tier): Tier
    decreases |QualityOrder| - i
  {
    if i >= |QualityOrder| then target
    else if HasHeadroom(bandwidth, QualityOrder[i]) then WalkUp(i + 1, bandwidth, QualityOrder[i])
    else target
  }

  /** The tier `determineOptimalQuality` returns: the buffer step, then the bandwidth step that may override it. */
  function OptimalQuality(isAutoMode: bool, current: Tier, bandwidth: nat, bufferHealth: real): Tier
  {
    if !isAutoMode then current
    else
      var afterBuffer := BufferStep(current, bandwidth, bufferHealth);
      if !Sustains(bandwidth, current) then
        WalkDown(Index(current) - 1, bandwidth, afterBuffer)
      else if ExceedsMax(bandwidth, current) && bufferHealth > 8.0 then
        WalkUp(Index(current) + 1, bandwidth, afterBuffer)
      else
        afterBuffer
  }

  // ---------------------------------------------------------------------------
  // Properties of the decision rule
  // ---------------------------------------------------------------------------

  /** The downward loop stops at the highest tier at or below index `i` that the bandwidth sustains. */
  lemma {:induction false} WalkDownFindsHighestSustained(i: int, bandwidth: nat, target: Tier)
    requires 0 <= i < |QualityOrder|
    ensures var r := WalkDown(i, bandwidth, target);
      && Index(r) <= i
      && Sustains(bandwidth, r)
      && forall j :: Index(r) < j <= i ==> !Sustains(bandwidth, QualityOrder[j])
  {
    if !Sustains(bandwidth, QualityOrder[i]) {
      assert i != 0;
      WalkDownFindsHighestSustained(i - 1, bandwidth, target);
    }
  }

  /**
   * The upward loop from index `i` either leaves `target` (when tier `i` lacks headroom) or
   * reaches a tier such that every tier from `i` up to it has headroom and the next one has not.
   */
  lemma {:induction false} WalkUpStopsAtFirstWithoutHeadroom(i: nat, bandwidth: nat, target: Tier)
    ensures var r := WalkUp(i, bandwidth, target);
      || (r == target && (i < |QualityOrder| ==> !HasHeadroom(bandwidth, QualityOrder[i])))
      || (&& i <= Index(r)
          && (forall j :: i <= j <= Index(r) ==> HasHeadroom(bandwidth, QualityOrder[j]))
          && (Index(r) + 1 < |QualityOrder| ==> !HasHeadroom(bandwidth, QualityOrder[Index(r) + 1])))
    decreases |QualityOrder| - i
  {
    if i < |QualityOrder| && HasHeadroom(bandwidth, QualityOrder[i]) {
      WalkUpStopsAtFirstWithoutHeadroom(i + 1, bandwidth, QualityOrder[i]);
    }
  }

  /** Whatever the upward loop returns above index `i - 1` has headroom, unless it is `target`. */
  lemma {:induction false} WalkUpHeadroom(i: nat, bandwidth: nat, target: Tier)
    ensures var r := WalkUp(i, bandwidth, target);
      r == target || (i <= Index(r) && HasHeadroom(bandwidth, r))
    decreases |QualityOrder| - i
  {
    if i < |QualityOrder| && HasHeadroom(bandwidth, QualityOrder[i]) {
      WalkUpHeadroom(i + 1, bandwidth, QualityOrder[i]);
    }
  }

  /** In manual mode the decision is the current tier. */
  lemma ManualModeKeepsCurrent(current: Tier, bandwidth: nat, bufferHealth: real)
    ensures OptimalQuality(false, current, bandwidth, bufferHealth) == current
  {
  }

  /** At a buffer of 3 s or less the decision is never above one tier below the current one (clamped at the bottom). */
  lemma CriticalBufferNeverRaises(current: Tier, bandwidth: nat, bufferHealth: real)
    requires bufferHealth <= 3.0
    ensures var r := OptimalQuality(true, current, bandwidth, bufferHealth);
      Index(r) <= if Index(current) == 0 then 0 else Index(current) - 1
  {
    if !Sustains(bandwidth, current) {
      WalkDownFindsHighestSustained(Index(current) - 1, bandwidth, BufferStep(current, bandwidth, bufferHealth));
    }
  }

  /** Any tier chosen above the current one has 20% bandwidth headroom. */
  lemma UpgradesHaveHeadroom(isAutoMode: bool, current: Tier, bandwidth: nat, bufferHealth: real)
    ensures var r := OptimalQuality(isAutoMode, current, bandwidth, bufferHealth);
      Index(r) > Index(current) ==> HasHeadroom(bandwidth, r)
  {
    var afterBuffer := BufferStep(current, bandwidth, bufferHealth);
    if isAutoMode {
      if !Sustains(bandwidth, current) {
        WalkDownFindsHighestSustained(Index(current) - 1, bandwidth, afterBuffer);
      } else if ExceedsMax(bandwidth, current) && bufferHealth > 8.0 {
        WalkUpHeadroom(Index(current) + 1, bandwidth, afterBuffer);
      }
    }
  }

  /**
   * Below 80% of the current tier's minimum, the decision is the highest lower tier whose
   * minimum is met at 80%, whatever the buffer step chose.
   */
  lemma LowBandwidthPicksHighestSustainedLowerTier(current: Tier, bandwidth: nat, bufferHealth: real)
    requires !Sustains(bandwidth, current)
    ensures var r := OptimalQuality(true, current, bandwidth, bufferHealth);
      && Index(r) < Index(current)
      && Sustains(bandwidth, r)
      && forall j :: Index(r) < j < Index(current) ==> !Sustains(bandwidth, QualityOrder[j])
  {
    WalkDownFindsHighestSustained(Index(current) - 1, bandwidth, BufferStep(current, bandwidth, bufferHealth));
  }

  /**
   * Above the current tier's maximum with more than 8 s buffered, the decision climbs through
   * every tier that has headroom and stops below the first that has not.
   */
  lemma HighBandwidthClimbsWhileHeadroom(current: Tier, bandwidth: nat, bufferHealth: real)
    requires Sustains(bandwidth, current) && ExceedsMax(bandwidth, current) && bufferHealth > 8.0
    ensures var r := OptimalQuality(true, current, bandwidth, bufferHealth);
      && Index(current) <= Index(r)
      && (forall j :: Index(current) < j <= Index(r) ==> HasHeadroom(bandwidth, QualityOrder[j]))
      && (Index(r) + 1 < |QualityOrder| ==> !HasHeadroom(bandwidth, QualityOrder[Index(r) + 1]))
  {
    var afterBuffer := BufferStep(current, bandwidth, bufferHealth);
    WalkUpStopsAtFirstWithoutHeadroom(Index(current) + 1, bandwidth, afterBuffer);
  }

  /** The scenarios of the repository's own tests, plus the critical-buffer override with ample bandwidth. */
  lemma DecisionScenarios()
    ensures OptimalQuality(true, Medium, 300000, 10.0) == UltraLow
    ensures OptimalQuality(true, Medium, 5000000, 15.0) == High
    ensures OptimalQuality(true, Medium, 2000000, 2.0) == Low
    ensures OptimalQuality(true, High, 5000000, 2.0) == Medium
  {
  }

  // ---------------------------------------------------------------------------
  // The switch, as a function of the controller's state
  // ---------------------------------------------------------------------------

  /** An entry of `availableQualities`: the tier's resource. */
  datatype QualityInfo = QualityInfo(url: string, bitrate: int, size: int)

  /** The part of the controller that a switch commits. */
  datatype SwitchState = SwitchState(current: Tier, lastChange: int, switchCount: nat)

  /**
   * What the media element does once its source is replaced: whether `load` reached
   * `loadeddata`, whether the element was playing before (so `play` is awaited), whether
   * `play` resolved, and the clock reading once those awaits are over.
   */
  datatype MediaOutcome = MediaOutcome(wasPlaying: bool, loaded: bool, resumed: bool, finishedAt: int)

  /** The outcome of one switch attempt; `loadedUrl` is the source the element was pointed at, if any. */
  datatype SwitchResult = SwitchResult(ok: bool, state: SwitchState, loadedUrl: Option<string>)

  /** The `qualityChanged` event a committed switch dispatches. */
  datatype QualityChanged = QualityChanged(quality: Tier, reason: string, bitrate: int)

  predicate Throttled(s: SwitchState, now: int)
  {
    now - s.lastChange < MinSwitchInterval
  }

  predicate MediaSucceeds(media: MediaOutcome)
  {
    media.loaded && (media.wasPlaying ==> media.resumed)
  }

  /** One call of `switchQuality` on state `s`. */
  function SwitchAttempt(s: SwitchState, available: map<Tier, QualityInfo>, target: Tier, now: int, media: MediaOutcome): (r: SwitchResult)
    ensures r.loadedUrl.Some? <==> !Throttled(s, now) && target in available && target != s.current
    ensures r.loadedUrl.Some? ==> r.loadedUrl.value == available[target].url
    ensures r.ok <==> r.loadedUrl.Some? && MediaSucceeds(media)
    ensures r.ok ==> r.state == SwitchState(target, media.finishedAt, s.switchCount + 1)
    ensures !r.ok ==> r.state == s
  {
    if Throttled(s, now) || target !in available || target == s.current then
      SwitchResult(false, s, None)
    else if MediaSucceeds(media) then
      SwitchResult(true, SwitchState(target, media.finishedAt, s.switchCount + 1), Some(available[target].url))
    else
      SwitchResult(false, s, Some(available[target].url))
  }

  /** After a committed switch, any attempt less than 5000 ms after it finished is refused and changes nothing. */
  lemma SwitchThrottlesFollowingAttempt(s: SwitchState, available: map<Tier, QualityInfo>, first: Tier, now: int, media: MediaOutcome,
                                        second: Tier, later: int, media': MediaOutcome)
    requires SwitchAttempt(s, available, first, now, media).ok
    requires later - media.finishedAt < MinSwitchInterval
    ensures var s' := SwitchAttempt(s, available, first, now, media).state;
      var r := SwitchAttempt(s', available, second, later, media');
      !r.ok && r.state == s' && r.loadedUrl == None
  {
  }

  // ---------------------------------------------------------------------------
  // The controller object
  // ---------------------------------------------------------------------------

  /** One entry of `qualityRules`: a tier's minimum and (unless unbounded) maximum bandwidth. */
  datatype QualityRule = QualityRule(minBandwidth: nat, maxBandwidth: Option<nat>)

  /** `qualityRules` as a table. */
  function QualityRules(): (rules: map<Tier, QualityRule>)
    ensures forall t :: t in rules && rules[t] == QualityRule(MinBandwidth(t), MaxBandwidth(t))
  {
    var rules := map t | t in QualityOrder :: QualityRule(MinBandwidth(t), MaxBandwidth(t));
    forall t: Tier ensures t in QualityOrder {
      assert QualityOrder[Index(t)] == t;
    }
    rules
  }

  /** `getQualityStats()`: a read-only snapshot. */
  datatype QualityStats = QualityStats(current: Tier, available: set<Tier>, switchCount: nat, isAutoMode: bool,
                                       rules: map<Tier, QualityRule>)

  class QualityManager {
    var currentQuality: Tier
    var availableQualities: map<Tier, QualityInfo>
    var isAutoMode: bool
    var lastQualityChange: int
    var qualitySwitchCount: nat
    /** `video.src`: the resource the media element is pointed at. */
    var videoSource: string

    constructor (videoSource: string)
      ensures currentQuality == Medium && availableQualities == map[] && isAutoMode
      ensures lastQualityChange == 0 && qualitySwitchCount == 0
      ensures this.videoSource == videoSource
    {
      currentQuality := Medium;
      availableQualities := map[];
      isAutoMode := true;
      lastQualityChange := 0;
      qualitySwitchCount := 0;
      this.videoSource := videoSource;
    }

    function State(): SwitchState
      reads this
    {
      SwitchState(currentQuality, lastQualityChange, qualitySwitchCount)
    }

    method SetAvailableQualities(qualities: map<Tier, QualityInfo>)
      modifies this
      ensures availableQualities == qualities
      ensures State() == old(State()) && isAutoMode == old(isAutoMode) && videoSource == old(videoSource)
    {
      availableQualities := qualities;
    }

    method SetAutoMode(enabled: bool)
      modifies this
      ensures isAutoMode == enabled
      ensures State() == old(State()) && availableQualities == old(availableQualities) && videoSource == old(videoSource)
    {
      isAutoMode := enabled;
    }

    /**
     * `switchQuality(target, reason)` called at time `now`. The three guards return false with
     * nothing changed; past them the element is pointed at the target's URL, and the state is
     * committed only if the media loads (and resumes, when it was playing).
     */
    method SwitchQuality(target: Tier, reason: string, now: int, media: MediaOutcome) returns (ok: bool, event: Option<QualityChanged>)
      modifies this
      ensures var r := SwitchAttempt(old(State()), old(availableQualities), target, now, media);
        && ok == r.ok
        && State() == r.state
        && videoSource == (if r.loadedUrl.Some? then r.loadedUrl.value else old(videoSource))
      ensures availableQualities == old(availableQualities) && isAutoMode == old(isAutoMode)
      ensures event == if ok then Some(QualityChanged(target, reason, availableQualities[target].bitrate)) else None
    {
      if now - lastQualityChange < MinSwitchInterval {
        return false, None;
      }
      if target !in availableQualities {
        return false, None;
      }
      if target == currentQuality {
        return false, None;
      }
      videoSource := availableQualities[target].url;
      if !media.loaded {
        return false, None;
      }
      if media.wasPlaying && !media.resumed {
        return false, None;
      }
      currentQuality := target;
      lastQualityChange := media.finishedAt;
      qualitySwitchCount := qualitySwitchCount + 1;
      ok, event := true, Some(QualityChanged(target, reason, availableQualities[target].bitrate));
    }

    /** `determineOptimalQuality(bandwidth, bufferHealth)`, with its two loops. */
    method DetermineOptimalQuality(bandwidth: nat, bufferHealth: real) returns (target: Tier)
      ensures target == OptimalQuality(isAutoMode, currentQuality, bandwidth, bufferHealth)
      ensures !isAutoMode ==> target == currentQuality
    {
      if !isAutoMode {
        return currentQuality;
      }
      target := currentQuality;
      var currentIndex := Index(currentQuality);
      if bufferHealth <= 3.0 {
        var lowerIndex := if currentIndex - 1 < 0 then 0 else currentIndex - 1;
        target := QualityOrder[lowerIndex];
      } else if bufferHealth >= 15.0 {
        var higherIndex := if |QualityOrder| - 1 < currentIndex + 1 then |QualityOrder| - 1 else currentIndex + 1;
        var potential := QualityOrder[higherIndex];
        if 5 * bandwidth >= 6 * MinBandwidth(potential) {
          target := potential;
        }
      }
      ghost var afterBuffer := target;
      assert afterBuffer == BufferStep(currentQuality, bandwidth, bufferHealth);
      if 5 * bandwidth < 4 * MinBandwidth(currentQuality) {
        var i := currentIndex - 1;
        while i >= 0
          invariant -1 <= i < currentIndex
          invariant target == afterBuffer
          invariant WalkDown(currentIndex - 1, bandwidth, afterBuffer) == WalkDown(i, bandwidth, afterBuffer)
          decreases i + 1
        {
          var quality := QualityOrder[i];
          if 5 * bandwidth >= 4 * MinBandwidth(quality) {
            target := quality;
            break;
          }
          i := i - 1;
        }
      } else if MaxBandwidth(currentQuality).Some? && bandwidth > MaxBandwidth(currentQuality).value && bufferHealth > 8.0 {
        var i := currentIndex + 1;
        while i < |QualityOrder|
          invariant currentIndex < i <= |QualityOrder|
          invariant WalkUp(currentIndex + 1, bandwidth, afterBuffer) == WalkUp(i, bandwidth, target)
          decreases |QualityOrder| - i
        {
          var quality := QualityOrder[i];
          if 5 * bandwidth >= 6 * MinBandwidth(quality) {
            target := quality;
          } else {
            break;
          }
          i := i + 1;
        }
      }
    }

    /** `getQualityStats()`. */
    function GetQualityStats(): (r: QualityStats)
      reads this
      ensures r.current == currentQuality && r.switchCount == qualitySwitchCount && r.isAutoMode == isAutoMode
      ensures forall t :: t in r.available <==> t in availableQualities
      ensures forall t :: t in r.rules && r.rules[t] == QualityRule(MinBandwidth(t), MaxBandwidth(t))
    {
      QualityStats(currentQuality, availableQualities.Keys, qualitySwitchCount, isAutoMode, QualityRules())
    }
  }

  /**
   * Two switches on a fresh controller: a committed switch, then a second attempt less than
   * 5000 ms after the first finished, which is refused and leaves the state as the first left it.
   */
  method ThrottleScenario(available: map<Tier, QualityInfo>, first: Tier, now: int, media: MediaOutcome,
                          second: Tier, later: int, media': MediaOutcome)
    returns (ok1: bool, ok2: bool, current: Tier)
    requires first in available && first != Medium && now >= MinSwitchInterval && MediaSucceeds(media)
    requires later - media.finishedAt < MinSwitchInterval
    ensures ok1 && !ok2 && current == first
  {
    var qm := new QualityManager("");
    qm.SetAvailableQualities(available);
    var e1, e2;
    ok1, e1 := qm.SwitchQuality(first, "manual", now, media);
    ok2, e2 := qm.SwitchQuality(second, "manual", later, media');
    current := qm.currentQuality;
  }
}
